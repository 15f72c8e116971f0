/** What the JSON reader can yield: strings that stand for themselves. */
module JsonClean {
  import opened Prelude
  import opened Json
  import opened JsonText

  predicate CleanTokens(ts: seq<Token>) { forall i :: 0 <= i < |ts| && ts[i].Text? ==> Clean(ts[i].s) }

  predicate AllClean(j: Json) {
    match j
    case Str(s) => Clean(s)
    case Arr(xs) => forall i :: 0 <= i < |xs| ==> AllClean(xs[i])
    case Obj(m) => forall k :: k in m ==> AllClean(m[k])
    case _ => true
  }

  lemma {:induction false} StringsAreClean(s: string)
    requires ReadString(s).Some?
    ensures Clean(ReadString(s).value.0)
    decreases |s|
  {
    if !Plain(s[0]) {
    } else {
      StringsAreClean(s[1..]);
    }
  }

  lemma {:induction false} TokensAreClean(s: string)
    requires Lex(s).Some?
    ensures CleanTokens(Lex(s).value)
    decreases |s|
  {
    if s == "" {
    } else if White(s[0]) || Structural(s[0]).Some? {
      TokensAreClean(s[1..]);
    } else {
      StringsAreClean(s[1..]);
      TokensAreClean(ReadString(s[1..]).value.1);
    }
  }

  lemma {:induction false} ValueIsClean(ts: seq<Token>)
    requires CleanTokens(ts) && ParseValue(ts).Some?
    ensures AllClean(ParseValue(ts).value.0) && CleanTokens(ParseValue(ts).value.1)
    decreases |ts|, 1
  {
    match ts[0]
    case Text(_) =>
    case LBrace =>
      if |ts| > 1 && ts[1] == RBrace {
      } else {
        FieldsAreClean(ts[1..], map[]);
      }
    case LBracket =>
      if |ts| > 1 && ts[1] == RBracket {
      } else {
        ItemsAreClean(ts[1..], []);
      }
    case _ =>
  }

  lemma {:induction false} FieldsAreClean(ts: seq<Token>, m: map<string, Json>)
    requires CleanTokens(ts) && ParseFields(ts, m).Some? && forall k :: k in m ==> AllClean(m[k])
    ensures AllClean(ParseFields(ts, m).value.0) && CleanTokens(ParseFields(ts, m).value.1)
    decreases |ts|, 0
  {
    ValueIsClean(ts[2..]);
    var (v, rest) := ParseValue(ts[2..]).value;
    if rest[0] == Comma { FieldsAreClean(rest[1..], m[ts[0].s := v]); }
  }

  lemma {:induction false} ItemsAreClean(ts: seq<Token>, xs: seq<Json>)
    requires CleanTokens(ts) && ParseItems(ts, xs).Some? && forall i :: 0 <= i < |xs| ==> AllClean(xs[i])
    ensures AllClean(ParseItems(ts, xs).value.0) && CleanTokens(ParseItems(ts, xs).value.1)
    decreases |ts|, 2
  {
    ValueIsClean(ts);
    var (v, rest) := ParseValue(ts).value;
    if rest[0] == Comma { ItemsAreClean(rest[1..], xs + [v]); }
  }

  /** Whatever the text, every string the reader yields stands for itself in a JSON string. */
  lemma ReadIsClean(text: string)
    requires Read(text).Some?
    ensures AllClean(Read(text).value)
  {
    TokensAreClean(text);
    ValueIsClean(Lex(text).value);
  }
}
