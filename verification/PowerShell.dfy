/** The PowerShell provisioner: files become a script, and the script, read the way PowerShell
    reads it, writes the files. */
module PowerShell {
  import opened Prelude
  import opened Base64
  import opened FilePath

  // ---- newline normalisation ------------------------------------------------------------------------

  /** `strings.ReplaceAll(s, "\r\n", "\n")`. */
  function CrLf(s: string): string
    decreases |s|
  {
    if s == "" then ""
    else if |s| > 1 && s[0] == '\r' && s[1] == '\n' then "\n" + CrLf(s[2..])
    else [s[0]] + CrLf(s[1..])
  }

  /** `strings.ReplaceAll(s, "\r", "\n")`. */
  function Cr(s: string): string {
    if s == "" then "" else [if s[0] == '\r' then '\n' else s[0]] + Cr(s[1..])
  }

  function Normalise(s: string): string { Cr(CrLf(s)) }

  predicate NoCr(s: string) { '\r' !in s }

  /** A cut that does not fall inside a carriage return and line feed. */
  predicate SafeCut(a: string, b: string) { a == "" || b == "" || a[|a| - 1] != '\r' || b[0] != '\n' }

  lemma {:induction false} CrLfConcat(a: string, b: string)
    requires SafeCut(a, b)
    ensures CrLf(a + b) == CrLf(a) + CrLf(b)
    decreases |a|
  {
    if a == "" {
      assert a + b == b;
    } else {
      var n := if BreakAhead(a) then 2 else 1;
      CrLfConcat(a[n..], b);
      assert (a + b)[n..] == a[n..] + b;
      assert BreakAhead(a + b) == BreakAhead(a) by { BreakAheadConcat(a, b); }
      CrLfStep(a);
      CrLfStep(a + b);
    }
  }

  predicate BreakAhead(s: string) { |s| > 1 && s[0] == '\r' && s[1] == '\n' }

  lemma BreakAheadConcat(a: string, b: string)
    requires a != "" && SafeCut(a, b)
    ensures BreakAhead(a + b) == BreakAhead(a)
  {
  }

  lemma CrLfStep(s: string)
    requires s != ""
    ensures CrLf(s) == if BreakAhead(s) then ['\n'] + CrLf(s[2..]) else [s[0]] + CrLf(s[1..])
  {
  }

  lemma {:induction false} CrConcat(a: string, b: string)
    ensures Cr(a + b) == Cr(a) + Cr(b)
  {
    if a == "" {
      assert a + b == b;
    } else {
      assert (a + b)[1..] == a[1..] + b;
      CrConcat(a[1..], b);
    }
  }

  lemma NormaliseConcat(a: string, b: string)
    requires SafeCut(a, b)
    ensures Normalise(a + b) == Normalise(a) + Normalise(b)
  {
    CrLfConcat(a, b);
    CrConcat(CrLf(a), CrLf(b));
  }

  lemma {:induction false} CrLfNoCr(s: string)
    requires NoCr(s)
    ensures CrLf(s) == s && Cr(s) == s
  {
    if s == "" {
    } else {
      CrLfNoCr(s[1..]);
      assert s == [s[0]] + s[1..];
    }
  }

  /** Text without carriage returns is left alone, and only such text is. */
  lemma {:induction false} NormaliseFixes(s: string)
    ensures NoCr(Normalise(s))
    ensures Normalise(s) == s <==> NoCr(s)
  {
    CrHasNoCr(CrLf(s));
    if NoCr(s) { CrLfNoCr(s); }
  }

  lemma {:induction false} CrHasNoCr(s: string)
    ensures NoCr(Cr(s))
  {
    if s == "" {
    } else {
      CrHasNoCr(s[1..]);
    }
  }

  // ---- single-quoted literals -------------------------------------------------------------------------

  /** `strings.ReplaceAll(s, "'", "''")`. */
  function Double(s: string): string {
    if s == "" then "" else (if s[0] == '\'' then "''" else [s[0]]) + Double(s[1..])
  }

  function QuotePS(s: string): string { "'" + Double(s) + "'" }

  /** The characters that PowerShell takes for a single quote: the ASCII one, which the code doubles,
      and the typographic ones, which it does not. */
  datatype Rule = Ascii | Full {
    predicate Quote(c: char) { c == '\'' || (Full? && '\U{2018}' <= c <= '\U{201B}') }
  }

  /** The inside of a single-quoted literal: two quotes stand for the second of them, and a quote by
      itself ends it. Gives the value and what follows the closing quote. */
  function ReadBody(q: Rule, s: string): (r: Option<(string, string)>)
    decreases |s|
  {
    if s == "" then None
    else if q.Quote(s[0]) then
      if |s| > 1 && q.Quote(s[1]) then
        var r := ReadBody(q, s[2..]);
        if r.None? then None else Some(([s[1]] + r.value.0, r.value.1))
      else Some(("", s[1..]))
    else
      var r := ReadBody(q, s[1..]);
      if r.None? then None else Some(([s[0]] + r.value.0, r.value.1))
  }

  function ReadLiteral(q: Rule, s: string): Option<(string, string)> {
    if s == "" || !q.Quote(s[0]) then None else ReadBody(q, s[1..])
  }

  /** The only quotes in the text are those the code doubles. */
  predicate PlainQuotes(q: Rule, s: string) { forall i :: 0 <= i < |s| && q.Quote(s[i]) ==> s[i] == '\'' }

  /** The text does not go on with a quote. */
  predicate NoQuoteAhead(q: Rule, rest: string) { rest == "" || !q.Quote(rest[0]) }

  lemma {:induction false} ReadDoubled(q: Rule, s: string, rest: string)
    requires PlainQuotes(q, s) && NoQuoteAhead(q, rest)
    ensures ReadBody(q, Double(s) + "'" + rest) == Some((s, rest))
    decreases |s|
  {
    var t := Double(s) + "'" + rest;
    if s == "" {
      assert t[0] == '\'' && t[1..] == rest;
    } else {
      ReadDoubled(q, s[1..], rest);
      var u := Double(s[1..]) + "'" + rest;
      assert s == [s[0]] + s[1..];
      if s[0] == '\'' {
        assert t[2..] == u;
      } else {
        assert t[1..] == u;
      }
    }
  }

  /** Reading a quoted text gives it back and stops at its closing quote exactly when all its quotes
      are ASCII ones; by the ASCII rule that is every text. */
  lemma QuoteRoundTrip(q: Rule, s: string, rest: string)
    requires NoQuoteAhead(q, rest)
    ensures ReadLiteral(q, QuotePS(s) + rest) == Some((s, rest)) <==> PlainQuotes(q, s)
    ensures q.Ascii? ==> PlainQuotes(q, s)
  {
    var t := Double(s) + "'" + rest;
    assert (QuotePS(s) + rest)[1..] == t;
    if PlainQuotes(q, s) {
      ReadDoubled(q, s, rest);
    } else if ReadBody(q, t) == Some((s, rest)) {
      ReadWeight(q, t);
      DoubleWeight(q, s);
      WeightConcat(q, Double(s) + "'", rest);
      WeightConcat(q, Double(s), "'");
    }
  }

  /** Two for a character that stands for itself, one for a quote. */
  function Weight(q: Rule, s: string): nat {
    if s == "" then 0 else (if q.Quote(s[0]) then 1 else 2) + Weight(q, s[1..])
  }

  lemma {:induction false} WeightConcat(q: Rule, a: string, b: string)
    ensures Weight(q, a + b) == Weight(q, a) + Weight(q, b)
    decreases |a|
  {
    if a == "" {
      assert a + b == b;
    } else {
      WeightConcat(q, a[1..], b);
      assert (a + b)[1..] == a[1..] + b;
    }
  }

  /** A literal weighs two for every character it stands for, and one for its closing quote. */
  lemma {:induction false} ReadWeight(q: Rule, t: string)
    requires ReadBody(q, t).Some?
    ensures var (x, rest) := ReadBody(q, t).value;
            Weight(q, t) == 2 * |x| + 1 + Weight(q, rest)
    decreases |t|
  {
    if !q.Quote(t[0]) {
      ReadWeight(q, t[1..]);
    } else if |t| > 1 && q.Quote(t[1]) {
      ReadWeight(q, t[2..]);
      assert t[1..][1..] == t[2..];
    } else {
      // the closing quote
    }
  }

  lemma {:induction false} DoubleWeight(q: Rule, s: string)
    ensures Weight(q, Double(s)) <= 2 * |s|
    ensures Weight(q, Double(s)) == 2 * |s| <==> PlainQuotes(q, s)
    decreases |s|
  {
    if s == "" {
    } else {
      var head := if s[0] == '\'' then "''" else [s[0]];
      DoubleWeight(q, s[1..]);
      WeightConcat(q, head, Double(s[1..]));
      assert Weight(q, "'") == 1 by { assert "'"[1..] == ""; }
      assert Weight(q, "''") == 2 by { assert "''"[1..] == "'"; }
      assert Weight(q, [s[0]]) == (if q.Quote(s[0]) then 1 else 2) by { assert [s[0]][1..] == ""; }
      assert PlainQuotes(q, s) <==> (q.Quote(s[0]) ==> s[0] == '\'') && PlainQuotes(q, s[1..]) by { PlainHead(q, s); }
    }
  }

  lemma PlainHead(q: Rule, s: string)
    requires s != ""
    ensures PlainQuotes(q, s) <==> (q.Quote(s[0]) ==> s[0] == '\'') && PlainQuotes(q, s[1..])
  {
    assert forall i :: 0 < i < |s| ==> s[i] == s[1..][i - 1];
  }

  lemma {:induction false} DoubleConcat(a: string, b: string)
    ensures Double(a + b) == Double(a) + Double(b)
  {
    if a == "" {
      assert a + b == b;
    } else {
      assert (a + b)[1..] == a[1..] + b;
      DoubleConcat(a[1..], b);
    }
  }

  /** What one character is doubled to. */
  function Head(c: char): string { if c == '\'' then "''" else [c] }

  lemma DoubleCons(c: char, s: string)
    ensures Double([c] + s) == Head(c) + Double(s)
  {
    assert ([c] + s)[1..] == s;
  }

  lemma DoubleBreak(s: string)
    requires BreakAhead(s)
    ensures BreakAhead(Double(s)) && Double(s)[2..] == Double(s[2..])
  {
    assert s == ['\r'] + s[1..] && s[1..] == ['\n'] + s[2..];
    DoubleCons('\r', s[1..]);
    DoubleCons('\n', s[2..]);
  }

  lemma {:induction false} CrLfDouble(s: string)
    ensures CrLf(Double(s)) == Double(CrLf(s))
    decreases |s|
  {
    if s == "" {
    } else {
      CrLfStep(s);
      if BreakAhead(s) {
        CrLfDouble(s[2..]);
        DoubleBreak(s);
        CrLfStep(Double(s));
        DoubleCons('\n', CrLf(s[2..]));
      } else {
        CrLfDouble(s[1..]);
        SafeHead(s);
        CrLfConcat(Head(s[0]), Double(s[1..]));
        CrLfHead(Head(s[0]));
        DoubleCons(s[0], CrLf(s[1..]));
      }
    }
  }

  lemma SafeHead(s: string)
    requires s != "" && !BreakAhead(s)
    ensures SafeCut(Head(s[0]), Double(s[1..])) && Double(s) == Head(s[0]) + Double(s[1..])
  {
    assert |s| > 1 ==> Double(s[1..])[0] == s[1];
  }

  lemma CrLfHead(head: string)
    requires head == "''" || |head| == 1
    ensures CrLf(head) == head
  {
    assert head[1..] == "" || head[1..] == "'";
    assert CrLf("'") == "'" + CrLf("'"[1..]);
  }

  lemma {:induction false} CrDouble(s: string)
    ensures Cr(Double(s)) == Double(Cr(s))
  {
    if s == "" {
    } else {
      CrDouble(s[1..]);
      var head := if s[0] == '\'' then "''" else [s[0]];
      CrConcat(head, Double(s[1..]));
      assert Cr(s)[1..] == Cr(s[1..]);
      assert "''"[1..] == "'" && "'"[1..] == "";
      assert Cr("''") == "'" + Cr("'") && Cr("'") == "'" + Cr("");
      assert [s[0]][1..] == "";
    }
  }

  /** Normalising a literal normalises what is quoted. */
  lemma NormaliseQuoted(s: string)
    ensures Normalise(QuotePS(s)) == QuotePS(Normalise(s))
  {
    CrLfDouble(s);
    CrDouble(CrLf(s));
    assert NoCr("'");
    CrLfNoCr("'");
    NormaliseConcat("'" + Double(s), "'");
    NormaliseConcat("'", Double(s));
  }

  // ---- internal/provisioner/powershell.go ---------------------------------------------------------------

  /** The fixed texts around the three literals of a file block. */
  datatype Frame = Frame(header: string, decode: string, decoded: string,
                         write: string, written: string, open: string, append: string)

  /** The block that `renderWriteFile` prints. */
  const BLOCK: Frame := Frame(
    "\n# --- write_file ---\n" + ("New-Item -ItemType " + "Directory -Force -Path "),
    " | Out-Null\n$bytes = " + ("[System.Convert]::" + "FromBase64String("),
    ")\n",
    "[System.IO.File]" + "::WriteAllBytes(",
    ", $bytes)\n",
    "$stream = " + "[System.IO.File]::Open(\n  ",
    ",\n  [System.IO.FileMode]" + ("::Append\n)\n"
        + ("$stream.Write($bytes, " + ("0, $bytes.Length)\n" + "$stream.Close()\n"))))

  /** No fixed text holds a carriage return, none that follows a literal starts with a quote, and
      the two ways to write differ in their first character. */
  predicate Proper(fr: Frame) {
    && NoCr(fr.header) && NoCr(fr.decode) && NoCr(fr.decoded) && NoCr(fr.write) && NoCr(fr.written)
       && NoCr(fr.open) && NoCr(fr.append)
    && Closes(fr.decode) && Closes(fr.decoded) && Closes(fr.written) && Closes(fr.append)
    && fr.write != "" && fr.open != "" && fr.write[0] != fr.open[0]
  }

  predicate Closes(s: string) { s != "" && !Full.Quote(s[0]) }

  lemma NoCrConcat(a: string, b: string)
    requires NoCr(a) && NoCr(b)
    ensures NoCr(a + b)
  {
  }

  lemma BlockIsProper()
    ensures Proper(BLOCK)
  {
    HeaderHasNoCr();
    DecodeHasNoCr();
    WriteHasNoCr();
    AppendHasNoCr();
  }

  lemma HeaderHasNoCr()
    ensures NoCr(BLOCK.header)
  {
    NoCrConcat("New-Item -ItemType ", "Directory -Force -Path ");
    NoCrConcat("\n# --- write_file ---\n", "New-Item -ItemType " + "Directory -Force -Path ");
  }

  lemma DecodeHasNoCr()
    ensures NoCr(BLOCK.decode) && Closes(BLOCK.decode) && NoCr(BLOCK.decoded) && Closes(BLOCK.decoded)
  {
    NoCrConcat("[System.Convert]::", "FromBase64String(");
    NoCrConcat(" | Out-Null\n$bytes = ", "[System.Convert]::" + "FromBase64String(");
  }

  lemma WriteHasNoCr()
    ensures NoCr(BLOCK.write) && NoCr(BLOCK.written) && Closes(BLOCK.written) && NoCr(BLOCK.open)
    ensures BLOCK.write != "" && BLOCK.open != "" && BLOCK.write[0] != BLOCK.open[0]
  {
    NoCrConcat("[System.IO.File]", "::WriteAllBytes(");
    NoCrConcat("$stream = ", "[System.IO.File]::Open(\n  ");
    assert BLOCK.write[0] == '[' && BLOCK.open[0] == '$';
  }

  lemma AppendHasNoCr()
    ensures NoCr(BLOCK.append) && Closes(BLOCK.append)
  {
    NoCrConcat("0, $bytes.Length)\n", "$stream.Close()\n");
    var t := "0, $bytes.Length)\n" + "$stream.Close()\n";
    NoCrConcat("$stream.Write($bytes, ", t);
    NoCrConcat("::Append\n)\n", "$stream.Write($bytes, " + t);
    NoCrConcat(",\n  [System.IO.FileMode]", "::Append\n)\n" + ("$stream.Write($bytes, " + t));
  }

  function Opening(fr: Frame, append: bool): string { if append then fr.open else fr.write }

  function Closing(fr: Frame, append: bool): string { if append then fr.append else fr.written }

  /** A file with its content decoded: what renderWriteFile prints and the script writes. */
  datatype Written = Written(path: string, dir: string, bytes: seq<byte>, append: bool)

  /** The text `renderWriteFile` adds for a file. */
  function RenderFile(fr: Frame, w: Written): string {
    fr.header + (QuotePS(w.dir) + (fr.decode + (QuotePS(Encode(w.bytes)) + (fr.decoded +
      (Opening(fr, w.append) + (QuotePS(w.path) + Closing(fr, w.append)))))))
  }

  function Renderer(fr: Frame): Written -> string { w => RenderFile(fr, w) }

  datatype Input = Input(files: seq<File>, commands: seq<string>, customUserData: string)

  predicate Decodable(files: seq<File>) { forall i :: 0 <= i < |files| ==> DecodedContent(files[i]).Some? }

  function Ready(f: File): Written
    requires DecodedContent(f).Some?
  {
    Written(f.path, Dir(f.path), DecodedContent(f).value, f.append)
  }

  function ReadyAll(files: seq<File>): (r: seq<Written>)
    requires Decodable(files)
    ensures |r| == |files| && forall i :: 0 <= i < |files| ==> r[i] == Ready(files[i])
  {
    seq(|files|, i requires 0 <= i < |files| => Ready(files[i]))
  }

  /** The texts of a list of things, one after the other. */
  function RenderAll<T>(render: T -> string, ws: seq<T>): string {
    if ws == [] then "" else render(ws[0]) + RenderAll(render, ws[1..])
  }

  function RenderCommands(commands: seq<string>): string {
    if commands == [] then "" else commands[0] + "\n" + RenderCommands(commands[1..])
  }

  /** What follows the file blocks. */
  function Tail(input: Input): string {
    (if input.commands == [] then "" else "\n# --- runcmd ---\n" + RenderCommands(input.commands))
        + input.customUserData
  }

  lemma Assoc(a: string, b: string, c: string)
    ensures (a + b) + c == a + (b + c)
  {
  }

  lemma {:induction false} RenderAllSnoc<T>(render: T -> string, ws: seq<T>, w: T)
    ensures RenderAll(render, ws + [w]) == RenderAll(render, ws) + render(w)
  {
    if ws == [] {
      assert ws + [w] == [w] && [w][1..] == [];
    } else {
      assert (ws + [w])[1..] == ws[1..] + [w];
      RenderAllSnoc(render, ws[1..], w);
      Assoc(render(ws[0]), RenderAll(render, ws[1..]), render(w));
    }
  }

  lemma {:induction false} RenderCommandsSnoc(cs: seq<string>, c: string)
    ensures RenderCommands(cs + [c]) == RenderCommands(cs) + c + "\n"
  {
    if cs == [] {
      assert [c][1..] == [] && cs + [c] == [c];
    } else {
      assert (cs + [c])[1..] == cs[1..] + [c];
      RenderCommandsSnoc(cs[1..], c);
    }
  }

  lemma OneMoreReady(files: seq<File>, i: nat)
    requires i < |files| && Decodable(files[..i]) && DecodedContent(files[i]).Some?
    ensures Decodable(files[..i + 1]) && ReadyAll(files[..i + 1]) == ReadyAll(files[..i]) + [Ready(files[i])]
  {
    assert forall k :: 0 <= k < i ==> files[..i + 1][k] == files[..i][k];
  }

  /** The file blocks, up to the first file that cannot be decoded. */
  method RenderBlocks(render: Written -> string, files: seq<File>) returns (r: Option<string>)
    ensures r.Some? <==> Decodable(files)
    ensures r.Some? ==> r.value == RenderAll(render, ReadyAll(files))
  {
    var b := "";
    for i := 0 to |files|
      invariant Decodable(files[..i]) && b == RenderAll(render, ReadyAll(files[..i]))
    {
      var decoded := DecodedContent(files[i]);
      if decoded.None? { return None; }
      var w := Ready(files[i]);
      OneMoreReady(files, i);
      RenderAllSnoc(render, ReadyAll(files[..i]), w);
      b := b + render(w);
    }
    assert files[..|files|] == files;
    r := Some(b);
  }

  method AddCommands(b0: string, commands: seq<string>) returns (b: string)
    ensures b == b0 + RenderCommands(commands)
  {
    b := b0;
    for i := 0 to |commands|
      invariant b == b0 + RenderCommands(commands[..i])
    {
      RenderCommandsSnoc(commands[..i], commands[i]);
      assert commands[..i + 1] == commands[..i] + [commands[i]];
      b := b + commands[i];
      b := b + "\n";
    }
    assert commands[..|commands|] == commands;
  }

  method AddTail(b0: string, input: Input) returns (b: string)
    ensures b == b0 + Tail(input)
  {
    b := b0;
    if |input.commands| > 0 {
      b := b + "\n# --- runcmd ---\n";
      b := AddCommands(b, input.commands);
    }
    if input.customUserData != "" { b := b + input.customUserData; }
    assert b == b0 + Tail(input);
  }

  /** `ToProvisionData`: fails exactly when some file cannot be decoded. */
  method ToProvisionData(input: Input) returns (r: Option<string>)
    ensures r.Some? <==> Decodable(input.files)
    ensures r.Some? ==> r.value == Normalise(RenderAll(Renderer(BLOCK), ReadyAll(input.files)) + Tail(input))
  {
    r := RenderBlocks(Renderer(BLOCK), input.files);
    if r.None? { return; }
    var b := AddTail(r.value, input);
    r := Some(Normalise(b));
  }

  // ---- running the script -------------------------------------------------------------------------------

  function Skip(prefix: string, s: string): Option<string> { if prefix <= s then Some(s[|prefix|..]) else None }

  /** A fixed text followed by a literal. */
  function ReadArgument(q: Rule, prefix: string, s: string): Option<(string, string)> {
    var rest := Skip(prefix, s);
    if rest.None? then None else ReadLiteral(q, rest.value)
  }

  /** Reads one file block from the start of a script. */
  function ReadFile(q: Rule, fr: Frame, s: string): Option<(Written, string)> {
    var dir := ReadArgument(q, fr.header, s);
    if dir.None? then None
    else
      var encoded := ReadArgument(q, fr.decode, dir.value.1);
      if encoded.None? || Decode(encoded.value.0).None? then None
      else
        var body := Skip(fr.decoded, encoded.value.1);
        if body.None? then None
        else
          var append := fr.open <= body.value;
          var path := ReadArgument(q, Opening(fr, append), body.value);
          if path.None? then None
          else
            var rest := Skip(Closing(fr, append), path.value.1);
            if rest.None? then None
            else Some((Written(path.value.0, dir.value.0, Decode(encoded.value.0).value, append), rest.value))
  }

  function Reader(q: Rule, fr: Frame): string -> Option<(Written, string)> { s => ReadFile(q, fr, s) }

  /** Reads n things in a row. */
  function ReadMany<T>(read: string -> Option<(T, string)>, n: nat, s: string): Option<(seq<T>, string)> {
    if n == 0 then Some(([], s))
    else
      var f := read(s);
      if f.None? then None
      else
        var more := ReadMany(read, n - 1, f.value.1);
        if more.None? then None else Some(([f.value.0] + more.value.0, more.value.1))
  }

  /** A file with the line breaks of its names normalised. */
  function Intended(w: Written): Written { w.(path := Normalise(w.path), dir := Normalise(w.dir)) }

  function IntendedAll(ws: seq<Written>): (r: seq<Written>)
    ensures |r| == |ws| && forall i :: 0 <= i < |ws| ==> r[i] == Intended(ws[i])
  {
    seq(|ws|, i requires 0 <= i < |ws| => Intended(ws[i]))
  }

  lemma SkipOwn(prefix: string, rest: string)
    ensures Skip(prefix, prefix + rest) == Some(rest)
  {
    assert (prefix + rest)[|prefix|..] == rest;
  }

  lemma ReadArgumentOwn(q: Rule, prefix: string, s: string, rest: string)
    requires NoQuoteAhead(q, rest) && PlainQuotes(q, s)
    ensures ReadArgument(q, prefix, prefix + (QuotePS(s) + rest)) == Some((s, rest))
  {
    SkipOwn(prefix, QuotePS(s) + rest);
    QuoteRoundTrip(q, s, rest);
  }

  lemma EncodeSafe(bytes: seq<byte>)
    ensures NoCr(Encode(bytes)) && PlainQuotes(Full, Encode(bytes))
  {
    EncodeInert(bytes);
  }

  /** Normalising a fixed text, a literal and what follows it piece by piece. */
  lemma NormaliseArgument(prefix: string, s: string, rest: string)
    requires NoCr(prefix)
    ensures Normalise(prefix + (QuotePS(s) + rest)) == prefix + (QuotePS(Normalise(s)) + Normalise(rest))
  {
    NormaliseFixes(prefix);
    NormaliseQuoted(s);
    assert QuotePS(s)[|QuotePS(s)| - 1] == '\'';
    NormaliseConcat(QuotePS(s), rest);
    SafePrefix(prefix, QuotePS(s) + rest);
    NormaliseConcat(prefix, QuotePS(s) + rest);
  }

  lemma SafePrefix(prefix: string, rest: string)
    requires NoCr(prefix)
    ensures SafeCut(prefix, rest)
  {
    assert prefix != "" ==> prefix[|prefix| - 1] in prefix;
  }

  lemma NormaliseFixed(prefix: string, rest: string)
    requires NoCr(prefix)
    ensures Normalise(prefix + rest) == prefix + Normalise(rest)
  {
    NormaliseFixes(prefix);
    SafePrefix(prefix, rest);
    NormaliseConcat(prefix, rest);
  }

  /** The normalised text of a file block is the block of the file with normalised names. */
  lemma NormaliseFile(fr: Frame, w: Written, rest: string)
    requires Proper(fr)
    ensures Normalise(RenderFile(fr, w) + rest) == RenderFile(fr, Intended(w)) + Normalise(rest)
  {
    var open, close, code := Opening(fr, w.append), Closing(fr, w.append), Encode(w.bytes);
    var t4 := close + rest;
    var t3 := open + (QuotePS(w.path) + t4);
    var t2 := fr.decoded + t3;
    var t1 := fr.decode + (QuotePS(code) + t2);
    Regroup(fr.header, QuotePS(w.dir), fr.decode, QuotePS(code), fr.decoded, open, QuotePS(w.path), close, rest);
    NormaliseFixed(close, rest);
    NormaliseArgument(open, w.path, t4);
    NormaliseFixed(fr.decoded, t3);
    NormaliseArgument(fr.decode, code, t2);
    EncodeSafe(w.bytes);
    NormaliseFixes(code);
    NormaliseArgument(fr.header, w.dir, t1);
    Regroup(fr.header, QuotePS(Normalise(w.dir)), fr.decode, QuotePS(code), fr.decoded, open,
        QuotePS(Normalise(w.path)), close, Normalise(rest));
  }

  lemma Regroup(a: string, b: string, c: string, d: string, e: string, f: string, g: string, h: string, rest: string)
    ensures (a + (b + (c + (d + (e + (f + (g + h))))))) + rest == a + (b + (c + (d + (e + (f + (g + (h + rest)))))))
  {
  }

  /** Reading a file block gives the file's names, its bytes and its mode, and stops at its end. */
  lemma ReadRendered(q: Rule, fr: Frame, w: Written, rest: string)
    requires Proper(fr) && PlainNames(q, w)
    ensures ReadFile(q, fr, RenderFile(fr, w) + rest) == Some((w, rest))
  {
    EncodeSafe(w.bytes);
    var open, close, code := Opening(fr, w.append), Closing(fr, w.append), Encode(w.bytes);
    var t4 := close + rest;
    var t3 := open + (QuotePS(w.path) + t4);
    var t2 := fr.decoded + t3;
    var t1 := fr.decode + (QuotePS(code) + t2);
    Regroup(fr.header, QuotePS(w.dir), fr.decode, QuotePS(code), fr.decoded, open, QuotePS(w.path), close, rest);
    ReadArgumentOwn(q, fr.header, w.dir, t1);
    ReadArgumentOwn(q, fr.decode, code, t2);
    DecodeEncode(w.bytes);
    SkipOwn(fr.decoded, t3);
    assert fr.open <= t3 <==> w.append;
    ReadArgumentOwn(q, open, w.path, t4);
    SkipOwn(close, rest);
  }

  /** Printing a list and reading it back, for any printer, reader and normaliser that agree on
      one good thing followed by anything. */
  lemma {:induction false} ReadManyRendered<T(!new)>(
      read: string -> Option<(T, string)>, render: T -> string, norm: string -> string, good: T -> bool, fix: T -> T,
      ws: seq<T>, fixed: seq<T>, tail: string)
    requires forall w, rest :: good(w) ==> read(norm(render(w) + rest)) == Some((fix(w), norm(rest)))
    requires |fixed| == |ws| && forall i :: 0 <= i < |ws| ==> good(ws[i]) && fixed[i] == fix(ws[i])
    ensures ReadMany(read, |ws|, norm(RenderAll(render, ws) + tail)) == Some((fixed, norm(tail)))
    decreases |ws|
  {
    if ws == [] {
      assert RenderAll(render, ws) + tail == tail;
    } else {
      var rest := RenderAll(render, ws[1..]) + tail;
      ReadManyRendered(read, render, norm, good, fix, ws[1..], fixed[1..], tail);
      Assoc(render(ws[0]), RenderAll(render, ws[1..]), tail);
      assert read(norm(render(ws[0]) + rest)) == Some((fix(ws[0]), norm(rest)));
      assert fixed == [fixed[0]] + fixed[1..];
    }
  }

  /** Decoded text keeps its quotes through normalisation. */
  lemma {:induction false} CrLfKeepsChars(s: string, c: char)
    requires c in s && c != '\r' && c != '\n'
    ensures c in CrLf(s)
    decreases |s|
  {
    CrLfStep(s);
    if BreakAhead(s) {
      assert s == ['\r', '\n'] + s[2..];
      CrLfKeepsChars(s[2..], c);
    } else {
      assert s == [s[0]] + s[1..];
      if c == s[0] {
      } else {
        CrLfKeepsChars(s[1..], c);
      }
    }
  }

  lemma {:induction false} CrKeepsChars(s: string, c: char)
    requires c in s && c != '\r'
    ensures c in Cr(s)
    decreases |s|
  {
    assert s == [s[0]] + s[1..];
    if c == s[0] {
    } else {
      CrKeepsChars(s[1..], c);
    }
  }

  /** No name of the file holds a quote that the code does not double. */
  predicate PlainNames(q: Rule, w: Written) { PlainQuotes(q, w.path) && PlainQuotes(q, w.dir) }

  lemma {:induction false} NormaliseKeepsQuotes(q: Rule, s: string)
    ensures PlainQuotes(q, Normalise(s)) <==> PlainQuotes(q, s)
  {
    CrLfChars(s);
    CrChars(CrLf(s));
    if PlainQuotes(q, s) {
      forall i | 0 <= i < |Normalise(s)| && q.Quote(Normalise(s)[i]) ensures Normalise(s)[i] == '\'' {
        assert Normalise(s)[i] in Normalise(s);
        assert Normalise(s)[i] in s;
      }
    } else {
      var i :| 0 <= i < |s| && q.Quote(s[i]) && s[i] != '\'';
      CrLfKeepsChars(s, s[i]);
      CrKeepsChars(CrLf(s), s[i]);
    }
  }

  lemma {:induction false} CrLfChars(s: string)
    ensures forall c :: c in CrLf(s) ==> c in s || c == '\n'
    decreases |s|
  {
    if |s| > 1 && s[0] == '\r' && s[1] == '\n' {
      CrLfChars(s[2..]);
    } else if s != "" {
      CrLfChars(s[1..]);
    }
  }

  lemma {:induction false} CrChars(s: string)
    ensures forall c :: c in Cr(s) ==> c in s || c == '\n'
    decreases |s|
  {
    if s == "" {
    } else {
      CrChars(s[1..]);
    }
  }

  lemma BlockReadsBack(q: Rule, fr: Frame, w: Written, rest: string)
    requires Proper(fr) && PlainNames(q, w)
    ensures Reader(q, fr)(Normalise(Renderer(fr)(w) + rest)) == Some((Intended(w), Normalise(rest)))
  {
    NormaliseFile(fr, w, rest);
    NormaliseKeepsQuotes(q, w.path);
    NormaliseKeepsQuotes(q, w.dir);
    ReadRendered(q, fr, Intended(w), Normalise(rest));
  }

  // ---- what a quote that is not doubled does -------------------------------------------------------

  lemma SkipWeight(q: Rule, prefix: string, s: string)
    requires Skip(prefix, s).Some?
    ensures Weight(q, s) == Weight(q, prefix) + Weight(q, Skip(prefix, s).value)
  {
    assert s == prefix + s[|prefix|..];
    WeightConcat(q, prefix, s[|prefix|..]);
  }

  lemma ArgumentWeight(q: Rule, prefix: string, s: string)
    requires ReadArgument(q, prefix, s).Some?
    ensures var (x, rest) := ReadArgument(q, prefix, s).value;
            Weight(q, s) == Weight(q, prefix) + 2 + 2 * |x| + Weight(q, rest)
  {
    SkipWeight(q, prefix, s);
    ReadWeight(q, Skip(prefix, s).value[1..]);
  }

  /** What a block weighs that is read as this file: its fixed texts, its three pairs of quotes, and
      two for every character of a name and of the encoded bytes. */
  function BlockWeight(q: Rule, fr: Frame, w: Written): int {
    Weight(q, fr.header) + Weight(q, fr.decode) + Weight(q, fr.decoded) + Weight(q, Opening(fr, w.append))
    + Weight(q, Closing(fr, w.append)) + 6 + 2 * |w.dir| + 2 * |Encode(w.bytes)| + 2 * |w.path|
  }

  lemma FileWeight(q: Rule, fr: Frame, s: string)
    requires ReadFile(q, fr, s).Some?
    ensures var (w, rest) := ReadFile(q, fr, s).value;
            Weight(q, s) == BlockWeight(q, fr, w) + Weight(q, rest)
  {
    ArgumentWeight(q, fr.header, s);
    var (dir, s1) := ReadArgument(q, fr.header, s).value;
    ArgumentWeight(q, fr.decode, s1);
    var (code, s2) := ReadArgument(q, fr.decode, s1).value;
    DecodeLength(code);
    SkipWeight(q, fr.decoded, s2);
    var s3 := Skip(fr.decoded, s2).value;
    var append := fr.open <= s3;
    ArgumentWeight(q, Opening(fr, append), s3);
    var (path, s4) := ReadArgument(q, Opening(fr, append), s3).value;
    SkipWeight(q, Closing(fr, append), s4);
  }

  function SumWeight(q: Rule, fr: Frame, ws: seq<Written>): int {
    if ws == [] then 0 else BlockWeight(q, fr, ws[0]) + SumWeight(q, fr, ws[1..])
  }

  lemma {:induction false} ManyWeight(q: Rule, fr: Frame, n: nat, s: string)
    requires ReadMany(Reader(q, fr), n, s).Some?
    ensures var (ws, rest) := ReadMany(Reader(q, fr), n, s).value;
            Weight(q, s) == SumWeight(q, fr, ws) + Weight(q, rest)
    decreases n
  {
    if n == 0 {
    } else {
      FileWeight(q, fr, s);
      var (w, s') := ReadFile(q, fr, s).value;
      ManyWeight(q, fr, n - 1, s');
      var ws := ReadMany(Reader(q, fr), n, s).value.0;
      assert ws[1..] == ReadMany(Reader(q, fr), n - 1, s').value.0;
    }
  }

  lemma QuotedWeight(q: Rule, s: string)
    ensures Weight(q, QuotePS(s)) <= 2 + 2 * |s|
    ensures Weight(q, QuotePS(s)) == 2 + 2 * |s| <==> PlainQuotes(q, s)
  {
    WeightConcat(q, "'" + Double(s), "'");
    WeightConcat(q, "'", Double(s));
    assert Weight(q, "'") == 1 by { assert "'"[1..] == ""; }
    DoubleWeight(q, s);
  }

  /** A printed block weighs less than that exactly when a name has a quote that is not doubled. */
  lemma RenderedWeight(q: Rule, fr: Frame, w: Written)
    ensures Weight(q, RenderFile(fr, w)) <= BlockWeight(q, fr, w)
    ensures Weight(q, RenderFile(fr, w)) == BlockWeight(q, fr, w) <==> PlainNames(q, w)
  {
    var open, close, code := Opening(fr, w.append), Closing(fr, w.append), QuotePS(Encode(w.bytes));
    var t6 := QuotePS(w.path) + close;
    var t5 := open + t6;
    var t4 := fr.decoded + t5;
    var t3 := code + t4;
    var t2 := fr.decode + t3;
    var t1 := QuotePS(w.dir) + t2;
    WeightConcat(q, fr.header, t1);
    WeightConcat(q, QuotePS(w.dir), t2);
    WeightConcat(q, fr.decode, t3);
    WeightConcat(q, code, t4);
    WeightConcat(q, fr.decoded, t5);
    WeightConcat(q, open, t6);
    WeightConcat(q, QuotePS(w.path), close);
    QuotedWeight(q, w.dir);
    QuotedWeight(q, w.path);
    QuotedWeight(q, Encode(w.bytes));
    EncodeSafe(w.bytes);
  }

  lemma {:induction false} AllRenderedWeight(q: Rule, fr: Frame, ws: seq<Written>)
    ensures Weight(q, RenderAll(Renderer(fr), ws)) <= SumWeight(q, fr, ws)
    ensures Weight(q, RenderAll(Renderer(fr), ws)) == SumWeight(q, fr, ws) <==>
              forall i :: 0 <= i < |ws| ==> PlainNames(q, ws[i])
    decreases |ws|
  {
    if ws == [] {
    } else {
      RenderedWeight(q, fr, ws[0]);
      AllRenderedWeight(q, fr, ws[1..]);
      WeightConcat(q, RenderFile(fr, ws[0]), RenderAll(Renderer(fr), ws[1..]));
      assert forall i :: 0 < i < |ws| ==> ws[i] == ws[1..][i - 1];
      assert (forall i :: 0 <= i < |ws| ==> PlainNames(q, ws[i])) <==>
             PlainNames(q, ws[0]) && forall i :: 0 <= i < |ws[1..]| ==> PlainNames(q, ws[1..][i]);
    }
  }

  /** Normalising a script normalises the names of its files and what follows them. */
  lemma {:induction false} NormaliseScript(fr: Frame, ws: seq<Written>, tail: string)
    requires Proper(fr)
    ensures Normalise(RenderAll(Renderer(fr), ws) + tail) == RenderAll(Renderer(fr), IntendedAll(ws)) + Normalise(tail)
    decreases |ws|
  {
    if ws == [] {
      assert RenderAll(Renderer(fr), ws) + tail == tail;
      assert RenderAll(Renderer(fr), IntendedAll(ws)) + Normalise(tail) == Normalise(tail);
    } else {
      var rest, more := RenderAll(Renderer(fr), ws[1..]), IntendedAll(ws);
      NormaliseScript(fr, ws[1..], tail);
      Assoc(RenderFile(fr, ws[0]), rest, tail);
      NormaliseFile(fr, ws[0], rest + tail);
      assert more[1..] == IntendedAll(ws[1..]);
      Assoc(RenderFile(fr, more[0]), RenderAll(Renderer(fr), more[1..]), Normalise(tail));
    }
  }

  /** The meaning of the script: exactly when no name has a quote that the code does not double, its
      first blocks write every file with exactly its decoded bytes, whatever bytes these are, and
      what follows is the normalised rest of the input. By the ASCII quote rule that is always so;
      by PowerShell's own, one typographic quote in one name is enough to change what the script
      writes or where its blocks end. */
  lemma ScriptWritesFiles(q: Rule, fr: Frame, ws: seq<Written>, tail: string)
    requires Proper(fr)
    ensures ReadMany(Reader(q, fr), |ws|, Normalise(RenderAll(Renderer(fr), ws) + tail))
              == Some((IntendedAll(ws), Normalise(tail)))
            <==> forall i :: 0 <= i < |ws| ==> PlainNames(q, ws[i])
  {
    if forall i :: 0 <= i < |ws| ==> PlainNames(q, ws[i]) {
      PlainScript(q, fr, ws, tail);
    } else {
      OddScript(q, fr, ws, tail);
    }
  }

  lemma OddScript(q: Rule, fr: Frame, ws: seq<Written>, tail: string)
    requires Proper(fr) && exists i :: 0 <= i < |ws| && !PlainNames(q, ws[i])
    ensures ReadMany(Reader(q, fr), |ws|, Normalise(RenderAll(Renderer(fr), ws) + tail))
         != Some((IntendedAll(ws), Normalise(tail)))
  {
    NormaliseScript(fr, ws, tail);
    var script := Normalise(RenderAll(Renderer(fr), ws) + tail);
    if ReadMany(Reader(q, fr), |ws|, script).Some? { ManyWeight(q, fr, |ws|, script); }
    WeightConcat(q, RenderAll(Renderer(fr), IntendedAll(ws)), Normalise(tail));
    AllRenderedWeight(q, fr, IntendedAll(ws));
    var i :| 0 <= i < |ws| && !PlainNames(q, ws[i]);
    NormaliseKeepsQuotes(q, ws[i].path);
    NormaliseKeepsQuotes(q, ws[i].dir);
    assert !PlainNames(q, IntendedAll(ws)[i]);
  }

  lemma PlainScript(q: Rule, fr: Frame, ws: seq<Written>, tail: string)
    requires Proper(fr) && forall i :: 0 <= i < |ws| ==> PlainNames(q, ws[i])
    ensures ReadMany(Reader(q, fr), |ws|, Normalise(RenderAll(Renderer(fr), ws) + tail))
         == Some((IntendedAll(ws), Normalise(tail)))
  {
    var norm := (s: string) => Normalise(s);
    var good := (w: Written) => PlainNames(q, w);
    var fix := (w: Written) => Intended(w);
    forall w: Written, rest: string | good(w)
      ensures Reader(q, fr)(norm(Renderer(fr)(w) + rest)) == Some((fix(w), norm(rest)))
    {
      BlockReadsBack(q, fr, w, rest);
    }
    ReadManyRendered(Reader(q, fr), Renderer(fr), norm, good, fix, ws, IntendedAll(ws), tail);
  }

  /** The files of an input have plain names. */
  predicate PlainFiles(q: Rule, files: seq<File>) {
    forall i :: 0 <= i < |files| ==> PlainQuotes(q, files[i].path) && PlainQuotes(q, Dir(files[i].path))
  }

  /** The same of the script the provisioner returns. */
  method ProvisionAndRun(q: Rule, input: Input) returns (r: Option<(seq<Written>, string)>)
    ensures !Decodable(input.files) ==> r.None?
    ensures Decodable(input.files) ==>
              (r == Some((IntendedAll(ReadyAll(input.files)), Normalise(Tail(input)))) <==> PlainFiles(q, input.files))
    ensures q.Ascii? ==> PlainFiles(q, input.files)
  {
    var script := ToProvisionData(input);
    if script.None? { return None; }
    BlockIsProper();
    ScriptWritesFiles(q, BLOCK, ReadyAll(input.files), Tail(input));
    PlainReady(q, input.files);
    r := ReadMany(Reader(q, BLOCK), |input.files|, script.value);
  }

  lemma PlainReady(q: Rule, files: seq<File>)
    requires Decodable(files)
    ensures PlainFiles(q, files) <==> forall i :: 0 <= i < |files| ==> PlainNames(q, ReadyAll(files)[i])
  {
    assert forall i :: 0 <= i < |files| ==> ReadyAll(files)[i] == Ready(files[i]);
  }

  /** A file lands at the path it was given exactly when that path has no carriage return, and with
      the bytes it was given always; likewise its directory. */
  lemma PathKept(f: File)
    requires DecodedContent(f).Some?
    ensures Intended(Ready(f)).path == f.path <==> NoCr(f.path)
    ensures Intended(Ready(f)).dir == Dir(f.path) <==> NoCr(Dir(f.path))
    ensures Intended(Ready(f)).bytes == DecodedContent(f).value && Intended(Ready(f)).append == f.append
  {
    NormaliseFixes(f.path);
    NormaliseFixes(Dir(f.path));
  }

  /** Every line break becomes one line feed: a carriage return with its line feed, and one without. */
  lemma BreaksBecomeLineFeeds(a: string, b: string)
    ensures Normalise(a + ("\r\n" + b)) == Normalise(a) + ("\n" + Normalise(b))
    ensures b == "" || b[0] != '\n' ==> Normalise(a + ("\r" + b)) == Normalise(a) + ("\n" + Normalise(b))
  {
    NormaliseConcat(a, "\r\n" + b);
    NormaliseConcat("\r\n", b);
    assert Normalise("\r\n") == "\n" by { OneBreak(); }
    if b == "" || b[0] != '\n' {
      NormaliseConcat(a, "\r" + b);
      NormaliseConcat("\r", b);
      assert Normalise("\r") == "\n" by { OneBreak(); }
    }
  }

  lemma OneBreak()
    ensures Normalise("\r\n") == "\n" && Normalise("\r") == "\n"
  {
    assert "\r\n"[2..] == "" && "\r"[1..] == "" && "\n"[1..] == "";
    assert CrLf("\r\n") == "\n" + CrLf("") && CrLf("\r") == "\r" + CrLf("");
    assert Cr("\n") == "\n" + Cr("") && Cr("\r") == "\n" + Cr("");
  }

  // ---- what follows the files ---------------------------------------------------------------------------

  /** The text up to the first line feed, and what follows it. */
  function ReadLine(s: string): Option<(string, string)> {
    if s == "" then None
    else if s[0] == '\n' then Some(("", s[1..]))
    else
      var r := ReadLine(s[1..]);
      if r.None? then None else Some(([s[0]] + r.value.0, r.value.1))
  }

  function LineReader(): string -> Option<(string, string)> { s => ReadLine(s) }

  lemma {:induction false} ReadLineOf(line: string, rest: string)
    requires '\n' !in line
    ensures ReadLine(line + "\n" + rest) == Some((line, rest))
    decreases |line|
  {
    var s := line + "\n" + rest;
    if line == "" {
      assert s[1..] == rest;
    } else {
      ReadLineOf(line[1..], rest);
      assert s[1..] == line[1..] + "\n" + rest;
      assert line == [line[0]] + line[1..];
    }
  }

  /** Every command is there, whole, in order and on a line of its own, after the line that announces
      them, and the user data comes last; without commands there is only the user data. */
  lemma {:induction false} TailReadsBack(input: Input)
    requires forall i :: 0 <= i < |input.commands| ==> '\n' !in input.commands[i]
    ensures input.commands == [] ==> Tail(input) == input.customUserData
    ensures input.commands != [] ==>
              var rest := Skip("\n# --- runcmd ---\n", Tail(input));
              rest.Some? && ReadMany(LineReader(), |input.commands|, rest.value)
                  == Some((input.commands, input.customUserData))
  {
    if input.commands != [] {
      var lines := RenderCommands(input.commands) + input.customUserData;
      assert Tail(input) == "\n# --- runcmd ---\n" + lines;
      SkipOwn("\n# --- runcmd ---\n", lines);
      CommandsReadBack(input.commands, input.customUserData);
    }
  }

  lemma {:induction false} CommandsReadBack(commands: seq<string>, rest: string)
    requires forall i :: 0 <= i < |commands| ==> '\n' !in commands[i]
    ensures ReadMany(LineReader(), |commands|, RenderCommands(commands) + rest) == Some((commands, rest))
    decreases |commands|
  {
    if commands == [] {
      assert RenderCommands(commands) + rest == rest;
    } else {
      var first, lines := commands[0], RenderCommands(commands[1..]);
      CommandsReadBack(commands[1..], rest);
      ReadLineOf(first, lines + rest);
      Assoc(first + "\n", lines, rest);
      OneMoreLine(|commands| - 1, first, lines + rest, commands[1..], rest);
      assert commands == [first] + commands[1..];
    }
  }

  lemma OneMoreLine(n: nat, line: string, s: string, lines: seq<string>, rest: string)
    requires ReadLine(line + "\n" + s) == Some((line, s)) && ReadMany(LineReader(), n, s) == Some((lines, rest))
    ensures ReadMany(LineReader(), n + 1, line + "\n" + s) == Some(([line] + lines, rest))
  {
  }
}
