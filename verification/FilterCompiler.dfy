/** The incident filter in its two forms: compiled to a WHERE clause with positional
    arguments, and evaluated directly over a list.

    The clause is plain text.  To say what it means, this module splits it into words,
    parses it with AND binding tighter than OR, and evaluates it with arguments bound to
    placeholders from left to right, LIKE being SQLite's. */
module FilterCompiler {
  import opened Common

  datatype Item = Item(namespace: string, name: string, reason: string, message: string, phase: string)

  datatype Filter = Filter(phase: string, namespace: string, reason: string, query: string)

  // ---------- SQL: words, grammar, evaluation ----------

  datatype Column = PhaseCol | NamespaceCol | NameCol | MessageCol | ReasonCol

  function ValueOf(x: Item, c: Column): string {
    match c
    case PhaseCol => x.phase
    case NamespaceCol => x.namespace
    case NameCol => x.name
    case MessageCol => x.message
    case ReasonCol => x.reason
  }

  datatype Token = ColT(c: Column) | EqT | LikeT | HoleT | AndT | OrT | OpenT | CloseT | WhereT | BadT

  function NonEmpty(w: string): seq<string> {
    if w == "" then [] else [w]
  }

  /** The words of `s`, the first of which starts with the letters already read. */
  function WordsFrom(read: string, s: string): seq<string>
    decreases |s|
  {
    if s == [] then NonEmpty(read)
    else if s[0] == ' ' then NonEmpty(read) + WordsFrom("", s[1..])
    else WordsFrom(read + [s[0]], s[1..])
  }

  function TokenOf(w: string): Token {
    if w == "phase" then ColT(PhaseCol)
    else if w == "namespace" then ColT(NamespaceCol)
    else if w == "name" then ColT(NameCol)
    else if w == "message" then ColT(MessageCol)
    else if w == "reason" then ColT(ReasonCol)
    else if w == "=" then EqT
    else if w == "LIKE" then LikeT
    else if w == "?" then HoleT
    else if w == "AND" then AndT
    else if w == "OR" then OrT
    else if w == "WHERE" then WhereT
    else BadT
  }

  /** A word with its brackets, if any, as tokens of their own. */
  function TokensOfWord(w: string): seq<Token> {
    if |w| > 1 && w[0] == '(' then [OpenT, TokenOf(w[1..])]
    else if |w| > 1 && w[|w| - 1] == ')' then [TokenOf(w[..|w| - 1]), CloseT]
    else [TokenOf(w)]
  }

  function TokensOfWords(ws: seq<string>): seq<Token> {
    if ws == [] then [] else TokensOfWord(ws[0]) + TokensOfWords(ws[1..])
  }

  function Lex(text: string): seq<Token> {
    TokensOfWords(WordsFrom("", text))
  }

  datatype Cond = EqC(c: Column) | LikeC(c: Column) | AndC(l: Cond, r: Cond) | OrC(l: Cond, r: Cond)

  datatype Parsed = Parsed(cond: Cond, rest: seq<Token>) | Wrong

  function ParseAtom(ts: seq<Token>): (p: Parsed)
    ensures p.Parsed? ==> |p.rest| < |ts|
    decreases |ts|, 0
  {
    if ts == [] then Wrong
    else if ts[0] == OpenT then
      var p := ParseOr(ts[1..]);
      if p.Parsed? && p.rest != [] && p.rest[0] == CloseT then Parsed(p.cond, p.rest[1..]) else Wrong
    else if |ts| >= 3 && ts[0].ColT? && ts[2] == HoleT then
      if ts[1] == EqT then Parsed(EqC(ts[0].c), ts[3..])
      else if ts[1] == LikeT then Parsed(LikeC(ts[0].c), ts[3..])
      else Wrong
    else Wrong
  }

  function ParseAnd(ts: seq<Token>): (p: Parsed)
    ensures p.Parsed? ==> |p.rest| < |ts|
    decreases |ts|, 1
  {
    var p := ParseAtom(ts);
    if p.Parsed? && p.rest != [] && p.rest[0] == AndT then
      var q := ParseAnd(p.rest[1..]);
      if q.Parsed? then Parsed(AndC(p.cond, q.cond), q.rest) else Wrong
    else p
  }

  function ParseOr(ts: seq<Token>): (p: Parsed)
    ensures p.Parsed? ==> |p.rest| < |ts|
    decreases |ts|, 2
  {
    var p := ParseAnd(ts);
    if p.Parsed? && p.rest != [] && p.rest[0] == OrT then
      var q := ParseOr(p.rest[1..]);
      if q.Parsed? then Parsed(OrC(p.cond, q.cond), q.rest) else Wrong
    else p
  }

  function Holes(c: Cond): nat {
    match c
    case AndC(l, r) => Holes(l) + Holes(r)
    case OrC(l, r) => Holes(l) + Holes(r)
    case _ => 1
  }

  /** Truth of a condition when its placeholders take `args` from left to right. */
  predicate Holds(c: Cond, x: Item, args: seq<string>)
    requires |args| == Holes(c)
  {
    match c
    case EqC(col) => ValueOf(x, col) == args[0]
    case LikeC(col) => Like(args[0], ValueOf(x, col))
    case AndC(l, r) => Holds(l, x, args[..Holes(l)]) && Holds(r, x, args[Holes(l)..])
    case OrC(l, r) => Holds(l, x, args[..Holes(l)]) || Holds(r, x, args[Holes(l)..])
  }

  /** What the database does with a clause: no clause selects everything, and a clause
      that is malformed or has the wrong number of arguments is an error. */
  function Selects(text: string, args: seq<string>, x: Item): Option<bool> {
    if text == "" then (if args == [] then Some(true) else None)
    else
      var ts := Lex(text);
      if ts == [] || ts[0] != WhereT then None
      else
        var p := ParseOr(ts[1..]);
        if p.Parsed? && p.rest == [] && |args| == Holes(p.cond) then Some(Holds(p.cond, x, args)) else None
  }

  /** SQLite's LIKE folds the case of ASCII letters only. */
  function Fold(c: char): char {
    if 'A' <= c <= 'Z' then (c as int + 32) as char else c
  }

  predicate Like(p: string, s: string)
    decreases |p| + |s|
  {
    if p == [] then s == []
    else if p[0] == '%' then Like(p[1..], s) || (s != [] && Like(p, s[1..]))
    else s != [] && (p[0] == '_' || Fold(p[0]) == Fold(s[0])) && Like(p[1..], s[1..])
  }

  // ---------- the compiler ----------

  datatype Clause = PhaseIs | NamespaceIs | ReasonIs | QueryIn

  function ClauseText(c: Clause): string {
    match c
    case PhaseIs => "phase = ?"
    case NamespaceIs => "namespace = ?"
    case ReasonIs => "reason = ?"
    case QueryIn => "(name LIKE ? OR message LIKE ? OR reason LIKE ?)"
  }

  function Wildcarded(q: string): string {
    "%" + q + "%"
  }

  function ClauseArgs(f: Filter, c: Clause): seq<string> {
    match c
    case PhaseIs => [f.phase]
    case NamespaceIs => [f.namespace]
    case ReasonIs => [f.reason]
    case QueryIn => [Wildcarded(f.query), Wildcarded(f.query), Wildcarded(f.query)]
  }

  function When(wanted: bool, c: Clause): seq<Clause> {
    if wanted then [c] else []
  }

  function Wanted(f: Filter, includePhase: bool): seq<Clause> {
    When(includePhase && f.phase != "", PhaseIs) + When(f.namespace != "", NamespaceIs) +
    When(f.reason != "", ReasonIs) + When(f.query != "", QueryIn)
  }

  function JoinTexts(cs: seq<Clause>): string {
    if cs == [] then "" else if |cs| == 1 then ClauseText(cs[0])
    else ClauseText(cs[0]) + " AND " + JoinTexts(cs[1..])
  }

  function WhereText(cs: seq<Clause>): string {
    if cs == [] then "" else " WHERE " + JoinTexts(cs)
  }

  function ArgsOf(f: Filter, cs: seq<Clause>): seq<string> {
    if cs == [] then [] else ClauseArgs(f, cs[0]) + ArgsOf(f, cs[1..])
  }

  function JoinStrings(parts: seq<string>, sep: string): string {
    if parts == [] then "" else if |parts| == 1 then parts[0] else parts[0] + sep + JoinStrings(parts[1..], sep)
  }

  /** The two slices hold the texts and arguments of the clauses added so far. */
  ghost predicate Compiled(f: Filter, cs: seq<Clause>, conds: seq<string>, args: seq<string>) {
    |cs| == |conds| && (forall i :: 0 <= i < |cs| ==> conds[i] == ClauseText(cs[i])) && args == ArgsOf(f, cs)
  }

  method AddClause(f: Filter, c: Clause, wanted: bool, conds: seq<string>, args: seq<string>, ghost cs: seq<Clause>)
    returns (conds': seq<string>, args': seq<string>)
    requires Compiled(f, cs, conds, args)
    ensures Compiled(f, cs + When(wanted, c), conds', args')
  {
    conds', args' := conds, args;
    assert cs + [] == cs;
    if wanted {
      ArgsAppend(f, cs, c);
      conds', args' := conds' + [ClauseText(c)], args' + ClauseArgs(f, c);
    }
  }

  method BuildWhere(f: Filter, includePhase: bool) returns (text: string, args: seq<string>)
    ensures text == WhereText(Wanted(f, includePhase))
    ensures args == ArgsOf(f, Wanted(f, includePhase))
  {
    var conds: seq<string> := [];
    args := [];
    ghost var cs: seq<Clause> := When(includePhase && f.phase != "", PhaseIs);
    assert [] + cs == cs;
    conds, args := AddClause(f, PhaseIs, includePhase && f.phase != "", conds, args, []);
    conds, args := AddClause(f, NamespaceIs, f.namespace != "", conds, args, cs);
    cs := cs + When(f.namespace != "", NamespaceIs);
    conds, args := AddClause(f, ReasonIs, f.reason != "", conds, args, cs);
    cs := cs + When(f.reason != "", ReasonIs);
    conds, args := AddClause(f, QueryIn, f.query != "", conds, args, cs);
    cs := cs + When(f.query != "", QueryIn);
    text := JoinConds(f, cs, conds, args);
  }

  method JoinConds(f: Filter, ghost cs: seq<Clause>, conds: seq<string>, args: seq<string>) returns (text: string)
    requires Compiled(f, cs, conds, args)
    ensures text == WhereText(cs)
  {
    if |conds| == 0 {
      return "";
    }
    JoinAgrees(cs, conds);
    text := " WHERE " + JoinStrings(conds, " AND ");
  }

  lemma {:induction false} ArgsAppend(f: Filter, cs: seq<Clause>, c: Clause)
    ensures ArgsOf(f, cs + [c]) == ArgsOf(f, cs) + ClauseArgs(f, c)
  {
    if cs == [] {
      assert cs + [c] == [c] && ArgsOf(f, [c][1..]) == [];
    } else {
      ArgsAppend(f, cs[1..], c);
      assert (cs + [c])[1..] == cs[1..] + [c];
    }
  }

  lemma {:induction false} JoinAgrees(cs: seq<Clause>, texts: seq<string>)
    requires |cs| == |texts| && forall i :: 0 <= i < |cs| ==> texts[i] == ClauseText(cs[i])
    ensures JoinStrings(texts, " AND ") == JoinTexts(cs)
  {
    if |cs| > 1 {
      JoinAgrees(cs[1..], texts[1..]);
    }
  }

  // ---------- the clause parses as intended ----------

  lemma {:induction false} WordsSplit(read: string, a: string, b: string)
    ensures WordsFrom(read, a + " " + b) == WordsFrom(read, a) + WordsFrom("", b)
    decreases |a|
  {
    var s := a + " " + b;
    if a == [] {
      assert s[0] == ' ' && s[1..] == b;
    } else {
      assert s[0] == a[0] && s[1..] == a[1..] + " " + b;
      if a[0] == ' ' {
        WordsSplit("", a[1..], b);
      } else {
        WordsSplit(read + [a[0]], a[1..], b);
      }
    }
  }

  predicate NoSpace(w: string) {
    forall i :: 0 <= i < |w| ==> w[i] != ' '
  }

  lemma {:induction false} OneWord(read: string, w: string)
    requires NoSpace(w)
    ensures WordsFrom(read, w) == NonEmpty(read + w)
    decreases |w|
  {
    if w == [] {
      assert read + w == read;
    } else {
      OneWord(read + [w[0]], w[1..]);
      assert read + [w[0]] + w[1..] == read + w;
    }
  }

  lemma {:induction false} TokensConcat(a: seq<string>, b: seq<string>)
    ensures TokensOfWords(a + b) == TokensOfWords(a) + TokensOfWords(b)
  {
    if a == [] {
      assert a + b == b;
    } else {
      TokensConcat(a[1..], b);
      assert (a + b)[0] == a[0] && (a + b)[1..] == a[1..] + b;
      Assoc(TokensOfWord(a[0]), TokensOfWords(a[1..]), TokensOfWords(b));
    }
  }

  /** Texts joined by a space lex to the concatenation of their tokens. */
  lemma {:induction false} LexSplit(a: string, b: string)
    ensures Lex(a + " " + b) == Lex(a) + Lex(b)
  {
    WordsSplit("", a, b);
    TokensConcat(WordsFrom("", a), WordsFrom("", b));
  }

  lemma {:induction false} LexWord(w: string)
    requires w != "" && NoSpace(w)
    ensures Lex(w) == TokensOfWord(w)
  {
    OneWord("", w);
    assert "" + w == w;
    assert TokensOfWords([w]) == TokensOfWord(w) + TokensOfWords([]);
  }

  lemma {:induction false} LexThree(a: string, b: string, c: string)
    requires a != "" && b != "" && c != "" && NoSpace(a) && NoSpace(b) && NoSpace(c)
    ensures Lex(a + " " + b + " " + c) == TokensOfWord(a) + TokensOfWord(b) + TokensOfWord(c)
  {
    LexSplit(a + " " + b, c);
    LexSplit(a, b);
    LexWord(a);
    LexWord(b);
    LexWord(c);
  }

  function ClauseTokens(c: Clause): seq<Token> {
    match c
    case PhaseIs => [ColT(PhaseCol), EqT, HoleT]
    case NamespaceIs => [ColT(NamespaceCol), EqT, HoleT]
    case ReasonIs => [ColT(ReasonCol), EqT, HoleT]
    case QueryIn =>
      [OpenT, ColT(NameCol), LikeT, HoleT, OrT, ColT(MessageCol), LikeT, HoleT, OrT, ColT(ReasonCol), LikeT, HoleT,
       CloseT]
  }

  lemma {:induction false} LexEquality(c: Clause)
    requires c != QueryIn
    ensures Lex(ClauseText(c)) == ClauseTokens(c)
  {
    match c
    case PhaseIs =>
      LexThree("phase", "=", "?");
      assert "phase" + " " + "=" + " " + "?" == "phase = ?";
    case NamespaceIs =>
      LexThree("namespace", "=", "?");
      assert "namespace" + " " + "=" + " " + "?" == "namespace = ?";
    case ReasonIs =>
      LexThree("reason", "=", "?");
      assert "reason" + " " + "=" + " " + "?" == "reason = ?";
  }

  lemma {:induction false} LexBetween(a: string, w: string, b: string)
    requires w != "" && NoSpace(w)
    ensures Lex(a + " " + w + " " + b) == Lex(a) + TokensOfWord(w) + Lex(b)
  {
    LexSplit(a + " " + w, b);
    LexSplit(a, w);
    LexWord(w);
  }

  lemma {:induction false} OpeningWord()
    ensures TokensOfWord("(name") == [OpenT, ColT(NameCol)]
  {
    assert "(name"[1..] == "name";
  }

  lemma {:induction false} ClosingWord()
    ensures TokensOfWord("?)") == [HoleT, CloseT]
  {
    assert "?)"[..1] == "?";
  }

  /** A word that lexes to one token. */
  predicate IsWord(w: string, t: Token) {
    w != "" && NoSpace(w) && TokensOfWord(w) == [t]
  }

  function Spaced(a: string, b: string, c: string): string {
    a + " " + b + " " + c
  }

  lemma {:induction false} LexQueryShape(n: string, m: string, r: string, like: string, or_: string, hole: string,
                                         end: string)
    requires n != "" && NoSpace(n) && TokensOfWord(n) == [OpenT, ColT(NameCol)]
    requires end != "" && NoSpace(end) && TokensOfWord(end) == [HoleT, CloseT]
    requires IsWord(m, ColT(MessageCol)) && IsWord(r, ColT(ReasonCol))
    requires IsWord(like, LikeT) && IsWord(or_, OrT) && IsWord(hole, HoleT)
    ensures Lex(Spaced(Spaced(Spaced(n, like, hole), or_, Spaced(m, like, hole)), or_, Spaced(r, like, end))) ==
            ClauseTokens(QueryIn)
  {
    LexThree(n, like, hole);
    LexThree(m, like, hole);
    LexThree(r, like, end);
    LexBetween(Spaced(n, like, hole), or_, Spaced(m, like, hole));
    LexBetween(Spaced(Spaced(n, like, hole), or_, Spaced(m, like, hole)), or_, Spaced(r, like, end));
  }

  lemma {:induction false} AlternativeTexts()
    ensures Spaced("(name", "LIKE", "?") == "(name LIKE ?"
    ensures Spaced("message", "LIKE", "?") == "message LIKE ?"
    ensures Spaced("reason", "LIKE", "?)") == "reason LIKE ?)"
  {}

  lemma {:induction false} FirstAlternatives()
    ensures Spaced("(name LIKE ?", "OR", "message LIKE ?") == "(name LIKE ? OR message LIKE ?"
  {}

  lemma {:induction false} AllAlternatives()
    ensures Spaced("(name LIKE ? OR message LIKE ?", "OR", "reason LIKE ?)") == ClauseText(QueryIn)
  {}

  lemma {:induction false} QueryText()
    ensures Spaced(Spaced(Spaced("(name", "LIKE", "?"), "OR", Spaced("message", "LIKE", "?")), "OR",
                   Spaced("reason", "LIKE", "?)")) == ClauseText(QueryIn)
  {
    AlternativeTexts();
    FirstAlternatives();
    AllAlternatives();
  }

  lemma {:induction false} LexClause(c: Clause)
    ensures Lex(ClauseText(c)) == ClauseTokens(c)
  {
    if c == QueryIn {
      OpeningWord();
      ClosingWord();
      QueryText();
      LexQueryShape("(name", "message", "reason", "LIKE", "OR", "?", "?)");
    } else {
      LexEquality(c);
    }
  }

  function LikeTokens(c: Column): seq<Token> {
    [ColT(c), LikeT, HoleT]
  }

  lemma {:induction false} ParseLike(c: Column, rest: seq<Token>)
    requires rest == [] || rest[0] != AndT
    ensures ParseAnd(LikeTokens(c) + rest) == Parsed(LikeC(c), rest)
  {
    var ts := LikeTokens(c) + rest;
    assert ts[0] == ColT(c) && ts[1] == LikeT && ts[2] == HoleT && ts[3..] == rest;
    assert ParseAtom(ts) == Parsed(LikeC(c), rest);
  }

  lemma {:induction false} ParseLikeOr(c: Column, more: seq<Token>)
    requires ParseOr(more).Parsed?
    ensures ParseOr(LikeTokens(c) + ([OrT] + more)) == Parsed(OrC(LikeC(c), ParseOr(more).cond), ParseOr(more).rest)
  {
    var rest := [OrT] + more;
    assert rest[1..] == more;
    ParseLike(c, rest);
  }

  function ClauseCond(c: Clause): Cond {
    match c
    case PhaseIs => EqC(PhaseCol)
    case NamespaceIs => EqC(NamespaceCol)
    case ReasonIs => EqC(ReasonCol)
    case QueryIn => OrC(LikeC(NameCol), OrC(LikeC(MessageCol), LikeC(ReasonCol)))
  }

  lemma {:induction false} ParseAlternatives(close: seq<Token>)
    requires close != [] && close[0] == CloseT
    ensures ParseOr(LikeTokens(NameCol) +
                    ([OrT] + (LikeTokens(MessageCol) + ([OrT] + (LikeTokens(ReasonCol) + close))))) ==
            Parsed(ClauseCond(QueryIn), close)
  {
    ParseLike(ReasonCol, close);
    var r := LikeTokens(ReasonCol) + close;
    ParseLikeOr(MessageCol, r);
    ParseLikeOr(NameCol, LikeTokens(MessageCol) + ([OrT] + r));
  }

  lemma {:induction false} ParseQuery(rest: seq<Token>)
    ensures ParseAtom(ClauseTokens(QueryIn) + rest) == Parsed(ClauseCond(QueryIn), rest)
  {
    var close := [CloseT] + rest;
    ParseAlternatives(close);
    QueryTokens(rest);
    assert close[1..] == rest;
  }

  lemma {:induction false} QueryTokens(rest: seq<Token>)
    ensures var ts := ClauseTokens(QueryIn) + rest;
            ts[0] == OpenT &&
            ts[1..] == LikeTokens(NameCol) +
              ([OrT] + (LikeTokens(MessageCol) + ([OrT] + (LikeTokens(ReasonCol) + ([CloseT] + rest)))))
  {}

  lemma {:induction false} ParseClause(c: Clause, rest: seq<Token>)
    ensures ParseAtom(ClauseTokens(c) + rest) == Parsed(ClauseCond(c), rest)
  {
    if c == QueryIn {
      ParseQuery(rest);
    } else {
      var ts := ClauseTokens(c) + rest;
      assert ts[0] == ClauseTokens(c)[0] && ts[1] == EqT && ts[2] == HoleT && ts[3..] == rest;
    }
  }

  function JoinTokens(cs: seq<Clause>): seq<Token>
    requires cs != []
  {
    ClauseTokens(cs[0]) + if |cs| == 1 then [] else [AndT] + JoinTokens(cs[1..])
  }

  function AndAll(cs: seq<Clause>): Cond
    requires cs != []
  {
    if |cs| == 1 then ClauseCond(cs[0]) else AndC(ClauseCond(cs[0]), AndAll(cs[1..]))
  }

  lemma {:induction false} ParseJoined(cs: seq<Clause>)
    requires cs != []
    ensures ParseAnd(JoinTokens(cs)) == Parsed(AndAll(cs), [])
  {
    if |cs| == 1 {
      ParseClause(cs[0], []);
    } else {
      ParseJoined(cs[1..]);
      var rest := [AndT] + JoinTokens(cs[1..]);
      assert rest[1..] == JoinTokens(cs[1..]);
      ParseClause(cs[0], rest);
    }
  }

  lemma {:induction false} LexJoined(cs: seq<Clause>)
    requires cs != []
    ensures Lex(JoinTexts(cs)) == JoinTokens(cs)
  {
    LexClause(cs[0]);
    if |cs| > 1 {
      LexJoined(cs[1..]);
      LexAnd(ClauseText(cs[0]), JoinTexts(cs[1..]));
    }
  }

  lemma {:induction false} LexAnd(a: string, b: string)
    ensures Lex(a + " AND " + b) == Lex(a) + ([AndT] + Lex(b))
  {
    LexBetween(a, "AND", b);
    assert a + " AND " + b == a + " " + "AND" + " " + b;
    assert Lex(a) + [AndT] + Lex(b) == Lex(a) + ([AndT] + Lex(b));
  }

  /** The whole clause parses to the conjunction of the wanted conditions. */
  lemma {:induction false} WhereParses(cs: seq<Clause>)
    requires cs != []
    ensures WhereText(cs) != "" && Lex(WhereText(cs)) == [WhereT] + JoinTokens(cs)
    ensures ParseOr(JoinTokens(cs)) == Parsed(AndAll(cs), [])
  {
    LexWhere(JoinTexts(cs));
    LexJoined(cs);
    ParseJoined(cs);
  }

  lemma {:induction false} LexWhere(text: string)
    ensures Lex(" WHERE " + text) == [WhereT] + Lex(text)
  {
    LexBetween("", "WHERE", text);
    assert " WHERE " + text == "" + " " + "WHERE" + " " + text;
    assert Lex("") == [];
  }

  // ---------- what the clause means ----------

  predicate ClauseHolds(f: Filter, c: Clause, x: Item) {
    match c
    case PhaseIs => x.phase == f.phase
    case NamespaceIs => x.namespace == f.namespace
    case ReasonIs => x.reason == f.reason
    case QueryIn => Found(f.query, x.name) || Found(f.query, x.message) || Found(f.query, x.reason)
  }

  /** The query occurs in the text as LIKE sees it. */
  predicate Found(q: string, s: string) {
    Like(Wildcarded(q), s)
  }

  lemma {:induction false} ClauseMeans(f: Filter, c: Clause, x: Item)
    ensures Holes(ClauseCond(c)) == |ClauseArgs(f, c)|
    ensures Holds(ClauseCond(c), x, ClauseArgs(f, c)) <==> ClauseHolds(f, c, x)
  {
    if c == QueryIn {
      var args := ClauseArgs(f, c);
      var later := OrC(LikeC(MessageCol), LikeC(ReasonCol));
      assert args[..1] == [args[0]] && args[1..] == [args[1], args[2]];
      assert args[1..][..1] == [args[1]] && args[1..][1..] == [args[2]];
      assert Holds(later, x, args[1..]) <==> Found(f.query, x.message) || Found(f.query, x.reason);
    }
  }

  lemma {:induction false} ConjunctionMeans(f: Filter, cs: seq<Clause>, x: Item)
    requires cs != []
    ensures Holes(AndAll(cs)) == |ArgsOf(f, cs)|
    ensures Holds(AndAll(cs), x, ArgsOf(f, cs)) <==> forall c :: c in cs ==> ClauseHolds(f, c, x)
  {
    ClauseMeans(f, cs[0], x);
    var args := ArgsOf(f, cs);
    if |cs| == 1 {
      assert cs[1..] == [] && ArgsOf(f, []) == [];
      assert args == ClauseArgs(f, cs[0]);
      assert forall c :: c in cs <==> c == cs[0];
    } else {
      ConjunctionMeans(f, cs[1..], x);
      var k := Holes(ClauseCond(cs[0]));
      assert args[..k] == ClauseArgs(f, cs[0]) && args[k..] == ArgsOf(f, cs[1..]);
      assert forall c :: c in cs <==> c == cs[0] || c in cs[1..];
    }
  }

  ghost predicate SqlSelects(f: Filter, includePhase: bool, x: Item) {
    forall c :: c in Wanted(f, includePhase) ==> ClauseHolds(f, c, x)
  }

  /** The emitted text with its arguments is always well formed, has as many placeholders
      as arguments, and selects exactly the items that meet every wanted condition. */
  lemma {:induction false} ClauseIsExact(f: Filter, includePhase: bool, x: Item)
    ensures var cs := Wanted(f, includePhase);
            Selects(WhereText(cs), ArgsOf(f, cs), x) == Some(SqlSelects(f, includePhase, x))
  {
    var cs := Wanted(f, includePhase);
    if cs != [] {
      WhereParses(cs);
      ConjunctionMeans(f, cs, x);
      assert ([WhereT] + JoinTokens(cs))[1..] == JoinTokens(cs);
    }
  }

  // ---------- LIKE with a wildcard-free query is substring search ----------

  predicate IsWild(c: char) {
    c == '%' || c == '_'
  }

  predicate WildFree(q: string) {
    forall i :: 0 <= i < |q| ==> !IsWild(q[i])
  }

  /** q occurs in s at position i, both sides seen through `view`. */
  predicate OccursAt(view: char -> char, q: string, s: string, i: nat) {
    i + |q| <= |s| && forall j :: 0 <= j < |q| ==> view(s[i + j]) == view(q[j])
  }

  lemma {:induction false} LikePercent(s: string)
    ensures Like("%", s)
    decreases |s|
  {
    if s == [] {
      assert Like("%"[1..], s);
    } else {
      LikePercent(s[1..]);
    }
  }

  lemma {:induction false} LikePrefix(q: string, s: string)
    requires WildFree(q)
    ensures Like(q + "%", s) <==> OccursAt(Fold, q, s, 0)
    decreases |q|
  {
    if q == [] {
      assert q + "%" == "%";
      LikePercent(s);
    } else {
      var p := q + "%";
      assert p[0] == q[0] && !IsWild(q[0]) && p[1..] == q[1..] + "%";
      if s != [] {
        LikePrefix(q[1..], s[1..]);
        OccursStep(q, s);
      }
    }
  }

  lemma {:induction false} OccursStep(q: string, s: string)
    requires q != [] && s != []
    ensures OccursAt(Fold, q, s, 0) <==> Fold(s[0]) == Fold(q[0]) && OccursAt(Fold, q[1..], s[1..], 0)
  {
    if Fold(s[0]) == Fold(q[0]) && OccursAt(Fold, q[1..], s[1..], 0) {
      forall j | 0 <= j < |q| ensures Fold(s[0 + j]) == Fold(q[j]) {
        assert j > 0 ==> Fold(s[1..][0 + (j - 1)]) == Fold(q[1..][j - 1]);
      }
    }
    if OccursAt(Fold, q, s, 0) {
      forall j | 0 <= j < |q[1..]| ensures Fold(s[1..][0 + j]) == Fold(q[1..][j]) {
        assert Fold(s[0 + (j + 1)]) == Fold(q[j + 1]);
      }
    }
  }

  ghost predicate Occurs(view: char -> char, q: string, s: string) {
    exists i: nat :: OccursAt(view, q, s, i)
  }

  lemma {:induction false} LikeAnywhere(q: string, s: string)
    requires WildFree(q)
    ensures Found(q, s) <==> Occurs(Fold, q, s)
    decreases |s|
  {
    var p := Wildcarded(q);
    assert p[1..] == q + "%";
    LikePrefix(q, s);
    if s != [] {
      LikeAnywhere(q, s[1..]);
      OccursLater(q, s);
    } else {
      assert Found(q, s) <==> Like(q + "%", s);
      assert forall i: nat :: OccursAt(Fold, q, s, i) ==> i == 0;
    }
  }

  lemma {:induction false} OccursLater(q: string, s: string)
    requires s != []
    ensures Occurs(Fold, q, s) <==> OccursAt(Fold, q, s, 0) || Occurs(Fold, q, s[1..])
  {
    if Occurs(Fold, q, s[1..]) {
      var i: nat :| OccursAt(Fold, q, s[1..], i);
      forall j | 0 <= j < |q| ensures Fold(s[i + 1 + j]) == Fold(q[j]) {
        assert s[1..][i + j] == s[i + 1 + j];
      }
      assert OccursAt(Fold, q, s, i + 1);
    }
    if Occurs(Fold, q, s) && !OccursAt(Fold, q, s, 0) {
      var i: nat :| OccursAt(Fold, q, s, i);
      forall j | 0 <= j < |q| ensures Fold(s[1..][i - 1 + j]) == Fold(q[j]) {
        assert s[1..][i - 1 + j] == s[i + j];
      }
      assert OccursAt(Fold, q, s[1..], i - 1);
    }
  }

  // ---------- the direct filter ----------

  predicate IsAscii(c: char) {
    c < '\U{0080}'
  }

  const KELVIN: char := '\U{212A}'
  const DOTTED_I: char := '\U{0130}'

  /** What is used of Go's rune-wise lower-casing: it folds ASCII letters, and outside ASCII
      only the Kelvin sign and the dotted capital I become ASCII. */
  ghost predicate LowersLikeGo(lower: char -> char) {
    (forall c :: IsAscii(c) ==> lower(c) == Fold(c)) &&
    (forall c :: !IsAscii(c) && IsAscii(lower(c)) ==> c == KELVIN || c == DOTTED_I) &&
    lower(KELVIN) == 'k' && lower(DOTTED_I) == 'i'
  }

  function LowerAll(lower: char -> char, s: string): (r: string)
    ensures |r| == |s| && forall i :: 0 <= i < |s| ==> r[i] == lower(s[i])
  {
    seq(|s|, i requires 0 <= i < |s| => lower(s[i]))
  }

  function ContainsFrom(s: string, q: string, i: nat): (b: bool)
    requires i <= |s|
    ensures b <==> exists j :: i <= j <= |s| && q <= s[j..]
    decreases |s| - i
  {
    if q <= s[i..] then true else if i == |s| then false else ContainsFrom(s, q, i + 1)
  }

  /** strings.Contains of the lower-cased texts. */
  predicate FoundDirectly(lower: char -> char, q: string, s: string) {
    ContainsFrom(LowerAll(lower, s), LowerAll(lower, q), 0)
  }

  predicate DirectSelects(lower: char -> char, f: Filter, x: Item) {
    (f.phase == "" || x.phase == f.phase) &&
    (f.namespace == "" || x.namespace == f.namespace) &&
    (f.reason == "" || x.reason == f.reason) &&
    (f.query == "" || FoundDirectly(lower, f.query, x.name) || FoundDirectly(lower, f.query, x.message) ||
     FoundDirectly(lower, f.query, x.reason))
  }

  function Chosen(lower: char -> char, f: Filter, xs: seq<Item>): seq<Item> {
    if xs == [] then []
    else Chosen(lower, f, xs[..|xs| - 1]) +
         if DirectSelects(lower, f, xs[|xs| - 1]) then [xs[|xs| - 1]] else []
  }

  method FilteredIncidents(lower: char -> char, f: Filter, xs: seq<Item>) returns (out: seq<Item>)
    ensures out == Chosen(lower, f, xs)
    ensures forall x :: x in out <==> x in xs && DirectSelects(lower, f, x)
  {
    out := [];
    for i := 0 to |xs|
      invariant out == Chosen(lower, f, xs[..i])
      invariant forall x :: x in out <==> x in xs[..i] && DirectSelects(lower, f, x)
    {
      var x := xs[i];
      assert xs[..i + 1][..i] == xs[..i] && xs[..i + 1][i] == x;
      if f.phase != "" && x.phase != f.phase { continue; }
      if f.namespace != "" && x.namespace != f.namespace { continue; }
      if f.reason != "" && x.reason != f.reason { continue; }
      if f.query != "" {
        var q := LowerAll(lower, f.query);
        if !ContainsFrom(LowerAll(lower, x.name), q, 0) &&
           !ContainsFrom(LowerAll(lower, x.message), q, 0) &&
           !ContainsFrom(LowerAll(lower, x.reason), q, 0) { continue; }
      }
      out := out + [x];
    }
    assert xs[..|xs|] == xs;
  }

  lemma {:induction false} DirectIsOccurrence(lower: char -> char, q: string, s: string)
    ensures FoundDirectly(lower, q, s) <==> Occurs(lower, q, s)
  {
    var ls, lq := LowerAll(lower, s), LowerAll(lower, q);
    if FoundDirectly(lower, q, s) {
      var i :| 0 <= i <= |ls| && lq <= ls[i..];
      forall j | 0 <= j < |q| ensures lower(s[i + j]) == lower(q[j]) {
        assert lq[j] == ls[i..][j];
      }
      assert OccursAt(lower, q, s, i);
    }
    if Occurs(lower, q, s) {
      var i: nat :| OccursAt(lower, q, s, i);
      assert lq == ls[i..][..|lq|];
    }
  }

  // ---------- when the two agree ----------

  predicate AsciiOnly(q: string) {
    forall i :: 0 <= i < |q| ==> IsAscii(q[i])
  }

  /** An ASCII letter that some non-ASCII letter lower-cases to. */
  predicate HasAlias(c: char) {
    c == 'i' || c == 'I' || c == 'k' || c == 'K'
  }

  predicate Plain(q: string) {
    forall i :: 0 <= i < |q| ==> !IsWild(q[i]) && !HasAlias(q[i])
  }

  lemma {:induction false} PlainAgrees(lower: char -> char, q: string, s: string)
    requires LowersLikeGo(lower) && AsciiOnly(q) && Plain(q)
    ensures Found(q, s) <==> FoundDirectly(lower, q, s)
  {
    LikeAnywhere(q, s);
    DirectIsOccurrence(lower, q, s);
    forall i: nat ensures OccursAt(Fold, q, s, i) <==> OccursAt(lower, q, s, i) {
      if i + |q| <= |s| {
        forall j | 0 <= j < |q| ensures Fold(s[i + j]) == Fold(q[j]) <==> lower(s[i + j]) == lower(q[j]) {
          PlainCharAgrees(lower, q[j], s[i + j]);
        }
      }
    }
  }

  lemma {:induction false} PlainCharAgrees(lower: char -> char, a: char, b: char)
    requires LowersLikeGo(lower) && IsAscii(a) && !HasAlias(a)
    ensures Fold(b) == Fold(a) <==> lower(b) == lower(a)
  {
    if !IsAscii(b) && lower(b) == lower(a) {
      assert IsAscii(lower(b));
    }
  }

  /** A text that the pattern matches because of its wildcards: `%` as nothing, `_` as x. */
  function Instance(q: string): (w: string)
    ensures |w| <= |q|
  {
    if q == "" then ""
    else (if q[0] == '%' then "" else if q[0] == '_' then "x" else [q[0]]) + Instance(q[1..])
  }

  lemma {:induction false} InstanceMatches(q: string, tail: string)
    requires Like(tail, "")
    ensures Like(q + tail, Instance(q))
    decreases |q|
  {
    if q == "" {
      assert q + tail == tail;
    } else {
      var p := q + tail;
      assert p[0] == q[0] && p[1..] == q[1..] + tail;
      InstanceMatches(q[1..], tail);
      if q[0] == '%' {
        assert Instance(q) == Instance(q[1..]);
      } else {
        assert Instance(q)[1..] == Instance(q[1..]);
      }
    }
  }

  lemma {:induction false} InstanceDiffers(q: string)
    requires !WildFree(q)
    ensures |Instance(q)| < |q| || exists i :: 0 <= i < |q| == |Instance(q)| && q[i] == '_' && Instance(q)[i] == 'x'
  {
    if q[0] == '_' {
      assert |Instance(q)| == |q| ==> q[0] == '_' && Instance(q)[0] == 'x';
    } else if q[0] != '%' {
      InstanceDiffers(q[1..]);
      if |Instance(q[1..])| == |q[1..]| {
        var i :| 0 <= i < |q[1..]| && q[1..][i] == '_' && Instance(q[1..])[i] == 'x';
        assert q[i + 1] == '_' && Instance(q)[i + 1] == 'x';
      }
    }
  }

  /** With a wildcard in the query, LIKE finds texts that the direct search does not. */
  lemma {:induction false} WildcardDisagrees(lower: char -> char, q: string)
    requires LowersLikeGo(lower) && AsciiOnly(q) && !WildFree(q)
    ensures Found(q, Instance(q)) && !FoundDirectly(lower, q, Instance(q))
  {
    var w := Instance(q);
    LikePercent("");
    InstanceMatches(q, "%");
    assert Wildcarded(q)[1..] == q + "%";
    DirectIsOccurrence(lower, q, w);
    InstanceDiffers(q);
    if |w| == |q| {
      var j :| 0 <= j < |q| && q[j] == '_' && w[j] == 'x';
      SameLengthMismatch(lower, q, w, j);
    }
  }

  lemma {:induction false} SameLengthMismatch(view: char -> char, q: string, w: string, j: nat)
    requires |w| == |q| && j < |q| && view(w[j]) != view(q[j])
    ensures !Occurs(view, q, w)
  {
    forall i: nat ensures !OccursAt(view, q, w, i) {
      assert i == 0 ==> view(w[i + j]) != view(q[j]);
    }
  }

  /** With an aliased letter, the direct search finds a text that LIKE does not. */
  lemma {:induction false} AliasDisagrees(lower: char -> char, q: string, p: nat)
    requires LowersLikeGo(lower) && AsciiOnly(q) && WildFree(q) && p < |q| && HasAlias(q[p])
    ensures var w := q[p := if q[p] == 'k' || q[p] == 'K' then KELVIN else DOTTED_I];
            FoundDirectly(lower, q, w) && !Found(q, w)
  {
    var w := q[p := if q[p] == 'k' || q[p] == 'K' then KELVIN else DOTTED_I];
    DirectIsOccurrence(lower, q, w);
    assert OccursAt(lower, q, w, 0);
    LikeAnywhere(q, w);
    SameLengthMismatch(Fold, q, w, p);
  }

  /** Any other ASCII query has a text on which the two searches disagree. */
  lemma {:induction false} DisagreementExists(lower: char -> char, q: string) returns (w: string)
    requires LowersLikeGo(lower) && AsciiOnly(q) && !Plain(q)
    ensures Found(q, w) != FoundDirectly(lower, q, w)
  {
    if !WildFree(q) {
      WildcardDisagrees(lower, q);
      w := Instance(q);
    } else {
      var p :| 0 <= p < |q| && HasAlias(q[p]);
      AliasDisagrees(lower, q, p);
      w := q[p := if q[p] == 'k' || q[p] == 'K' then KELVIN else DOTTED_I];
    }
  }

  // ---------- agreement of the whole filters ----------

  /** The SQL form of the list filter. */
  ghost predicate SqlFilter(f: Filter, x: Item) {
    SqlSelects(f, true, x)
  }

  lemma {:induction false} SqlFilterUnfolded(f: Filter, x: Item)
    ensures SqlFilter(f, x) <==>
            (f.phase == "" || x.phase == f.phase) &&
            (f.namespace == "" || x.namespace == f.namespace) &&
            (f.reason == "" || x.reason == f.reason) &&
            (f.query == "" || Found(f.query, x.name) || Found(f.query, x.message) || Found(f.query, x.reason))
  {
    var cs := Wanted(f, true);
    assert PhaseIs in cs <==> f.phase != "";
    assert NamespaceIs in cs <==> f.namespace != "";
    assert ReasonIs in cs <==> f.reason != "";
    assert QueryIn in cs <==> f.query != "";
    assert (f.phase == "" || ClauseHolds(f, PhaseIs, x)) && (f.namespace == "" || ClauseHolds(f, NamespaceIs, x)) &&
           (f.reason == "" || ClauseHolds(f, ReasonIs, x)) && (f.query == "" || ClauseHolds(f, QueryIn, x)) ==>
           forall c :: c in cs ==> ClauseHolds(f, c, x);
  }

  /** What a caller can check: the query is plain, or the fixed reason already matches. */
  predicate Portable(lower: char -> char, f: Filter) {
    Plain(f.query) ||
    (f.reason != "" && Found(f.query, f.reason) && FoundDirectly(lower, f.query, f.reason))
  }

  lemma {:induction false} PortableAgrees(lower: char -> char, f: Filter, x: Item)
    requires LowersLikeGo(lower) && AsciiOnly(f.query) && Portable(lower, f)
    ensures SqlFilter(f, x) <==> DirectSelects(lower, f, x)
  {
    SqlFilterUnfolded(f, x);
    if Plain(f.query) {
      PlainAgrees(lower, f.query, x.name);
      PlainAgrees(lower, f.query, x.message);
      PlainAgrees(lower, f.query, x.reason);
    }
  }

  /** A pattern that matches the empty text matches every text. */
  lemma {:induction false} EmptyMatchIsTotal(p: string, s: string)
    requires p != "" && Like(p, "")
    ensures Like(p, s)
    decreases |p|
  {
    if |p| == 1 {
      assert p == "%";
      LikePercent(s);
    } else {
      EmptyMatchIsTotal(p[1..], s);
    }
  }

  lemma {:induction false} EmptyIsNotFoundDirectly(lower: char -> char, q: string)
    requires q != ""
    ensures !FoundDirectly(lower, q, "")
  {
    DirectIsOccurrence(lower, q, "");
  }

  /** Otherwise some item is treated differently. */
  lemma {:induction false} NotPortableDisagrees(lower: char -> char, f: Filter) returns (x: Item)
    requires LowersLikeGo(lower) && AsciiOnly(f.query) && !Portable(lower, f)
    ensures SqlFilter(f, x) != DirectSelects(lower, f, x)
  {
    var q, r := f.query, f.reason;
    EmptyIsNotFoundDirectly(lower, q);
    var w := DisagreementExists(lower, q);
    var name := if Found(q, r) != FoundDirectly(lower, q, r) then "" else w;
    x := Item(f.namespace, name, r, "", f.phase);
    SqlFilterUnfolded(f, x);
    if Found(q, "") {
      EmptyMatchIsTotal(Wildcarded(q), r);
      EmptyMatchIsTotal(Wildcarded(q), w);
    }
  }

  /** For an ASCII query the WHERE clause and the direct filter select the same items from
      every list exactly when the filter is portable. */
  lemma {:induction false} FiltersAgreeExactly(lower: char -> char, f: Filter)
    requires LowersLikeGo(lower) && AsciiOnly(f.query)
    ensures (forall x :: SqlFilter(f, x) <==> DirectSelects(lower, f, x)) <==> Portable(lower, f)
  {
    if Portable(lower, f) {
      forall x ensures SqlFilter(f, x) <==> DirectSelects(lower, f, x) {
        PortableAgrees(lower, f, x);
      }
    } else {
      var x := NotPortableDisagrees(lower, f);
    }
  }

  /** The rows a query with this clause returns, in table order. */
  function Rows(text: string, args: seq<string>, xs: seq<Item>): seq<Item> {
    if xs == [] then []
    else
      var n := |xs| - 1;
      Rows(text, args, xs[..n]) + if Selects(text, args, xs[n]) == Some(true) then [xs[n]] else []
  }

  function RowsFor(f: Filter, includePhase: bool, xs: seq<Item>): seq<Item> {
    Rows(WhereText(Wanted(f, includePhase)), ArgsOf(f, Wanted(f, includePhase)), xs)
  }

  /** Running the emitted clause over any list gives the list of the direct filter. */
  lemma {:induction false} ListsAgree(lower: char -> char, f: Filter, xs: seq<Item>)
    requires LowersLikeGo(lower) && AsciiOnly(f.query) && Portable(lower, f)
    ensures RowsFor(f, true, xs) == Chosen(lower, f, xs)
  {
    if xs != [] {
      var n := |xs| - 1;
      ListsAgree(lower, f, xs[..n]);
      ClauseIsExact(f, true, xs[n]);
      PortableAgrees(lower, f, xs[n]);
    }
  }

  // ---------- counts per phase ----------

  /** Compiling without the phase is compiling the filter with its phase cleared. */
  lemma {:induction false} PhaseIgnored(f: Filter, x: Item)
    ensures SqlSelects(f, false, x) <==> SqlFilter(f.(phase := ""), x)
  {
    assert Wanted(f, false) == Wanted(f.(phase := ""), true);
    assert forall c :: c in Wanted(f, false) ==> (ClauseHolds(f, c, x) <==> ClauseHolds(f.(phase := ""), c, x));
  }

  ghost function Total(m: map<string, nat>): nat
    decreases |m|
  {
    if m == map[] then 0
    else
      var k :| k in m;
      DropShrinks(m, k);
      m[k] + Total(m - {k})
  }

  lemma {:induction false} DropShrinks(m: map<string, nat>, k: string)
    requires k in m
    ensures |m - {k}| < |m|
  {
    assert (m - {k}).Keys == m.Keys - {k};
  }

  /** The total does not depend on the order of summation. */
  lemma {:induction false} TotalSplit(m: map<string, nat>, k: string)
    requires k in m
    ensures Total(m) == m[k] + Total(m - {k})
    decreases |m|
  {
    var j :| j in m && Total(m) == m[j] + Total(m - {j});
    if j != k {
      DropShrinks(m, j);
      DropShrinks(m, k);
      TotalSplit(m - {j}, k);
      TotalSplit(m - {k}, j);
      assert m - {j} - {k} == m - {k} - {j};
    }
  }

  function CountPhase(xs: seq<Item>, phase: string): nat {
    if xs == [] then 0 else CountPhase(xs[..|xs| - 1], phase) + if xs[|xs| - 1].phase == phase then 1 else 0
  }

  function Bumped(m: map<string, nat>, k: string): map<string, nat> {
    m[k := (if k in m then m[k] else 0) + 1]
  }

  lemma {:induction false} BumpAddsOne(m: map<string, nat>, k: string)
    ensures Total(Bumped(m, k)) == Total(m) + 1
  {
    var m' := Bumped(m, k);
    TotalSplit(m', k);
    assert m' - {k} == m - {k};
    if k in m {
      TotalSplit(m, k);
    } else {
      assert m - {k} == m;
    }
  }

  /** GROUP BY phase. */
  function GroupedByPhase(rows: seq<Item>): map<string, nat> {
    if rows == [] then map[] else Bumped(GroupedByPhase(rows[..|rows| - 1]), rows[|rows| - 1].phase)
  }

  /** Groups are the phases that occur, each with its number of rows, and add up to all. */
  lemma {:induction false} GroupsAddUp(rows: seq<Item>)
    ensures forall p :: (if p in GroupedByPhase(rows) then GroupedByPhase(rows)[p] else 0) == CountPhase(rows, p)
    ensures Total(GroupedByPhase(rows)) == |rows|
  {
    if rows != [] {
      GroupsAddUp(rows[..|rows| - 1]);
      BumpAddsOne(GroupedByPhase(rows[..|rows| - 1]), rows[|rows| - 1].phase);
    }
  }

  /** The counts per phase add up to the count of the same filter with its phase cleared. */
  lemma {:induction false} PhaseCountsSum(f: Filter, xs: seq<Item>)
    ensures RowsFor(f, false, xs) == RowsFor(f.(phase := ""), true, xs)
    ensures Total(GroupedByPhase(RowsFor(f, false, xs))) == |RowsFor(f.(phase := ""), true, xs)|
  {
    if xs != [] {
      var n, g := |xs| - 1, f.(phase := "");
      PhaseCountsSum(f, xs[..n]);
      ClauseIsExact(f, false, xs[n]);
      ClauseIsExact(g, true, xs[n]);
      PhaseIgnored(f, xs[n]);
    }
    GroupsAddUp(RowsFor(f, false, xs));
  }

  /** Counts per phase ignore the phase of the filter; they are exact, and they sum to the
      number of items that pass the filter with its phase cleared. */
  method CountIncidentsByPhase(lower: char -> char, f: Filter, xs: seq<Item>) returns (counts: map<string, nat>)
    ensures var all := Chosen(lower, f.(phase := ""), xs);
            counts == GroupedByPhase(all) &&
            (forall p :: (if p in counts then counts[p] else 0) == CountPhase(all, p)) &&
            Total(counts) == |all|
  {
    var all := FilteredIncidents(lower, f.(phase := ""), xs);
    counts := map[];
    for i := 0 to |all|
      invariant counts == GroupedByPhase(all[..i])
    {
      assert all[..i + 1][..i] == all[..i] && all[..i + 1][i] == all[i];
      counts := Bumped(counts, all[i].phase);
    }
    assert all[..|all|] == all;
    GroupsAddUp(all);
  }
}
