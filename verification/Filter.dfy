/**
 Compiling event matchers to subscription filters: the printer, a parser for the
 filter syntax, and what a parsed filter means on the published attributes.
 */
module Filter {
  import opened Base

  /** What a matcher can see of an event. */
  datatype Ev = Ev(etype: string, at: string)

  /** The built-in matchers, and any other implementation of the interface. */
  datatype Matcher =
    | MatchEvents(types: seq<string>)
    | MatchAggregates(types: seq<string>)
    | MatchAny(matchers: seq<Matcher>)
    | MatchAll(matchers: seq<Matcher>)
    | Custom(pred: Ev -> bool)

  predicate Match(m: Matcher, e: Ev) {
    match m
    case MatchEvents(types) => e.etype in types
    case MatchAggregates(types) => e.at in types
    case MatchAny(matchers) => exists i :: 0 <= i < |matchers| && Match(matchers[i], e)
    case MatchAll(matchers) => forall i :: 0 <= i < |matchers| ==> Match(matchers[i], e)
    case Custom(pred) => pred(e)
  }

  /** Nothing to match: everything matches all of it, and nothing matches any of it. */
  lemma MatchNothing(e: Ev)
    ensures Match(MatchAll([]), e)
    ensures !Match(MatchAny([]), e) && !Match(MatchEvents([]), e) && !Match(MatchAggregates([]), e)
  {
  }

  /** One more alternative, or one more condition; with nothing to match, this says what every built-in matcher matches. */
  lemma MatchOneMore(ms: seq<Matcher>, m: Matcher, types: seq<string>, t: string, e: Ev)
    ensures Match(MatchAll(ms + [m]), e) <==> Match(MatchAll(ms), e) && Match(m, e)
    ensures Match(MatchAny(ms + [m]), e) <==> Match(MatchAny(ms), e) || Match(m, e)
    ensures Match(MatchEvents(types + [t]), e) <==> Match(MatchEvents(types), e) || e.etype == t
    ensures Match(MatchAggregates(types + [t]), e) <==> Match(MatchAggregates(types), e) || e.at == t
  {
    var more := ms + [m];
    assert more[|ms|] == m;
    if Match(MatchAny(ms), e) {
      var i :| 0 <= i < |ms| && Match(ms[i], e);
      assert more[i] == ms[i];
    }
    if Match(MatchAll(more), e) {
      forall i | 0 <= i < |ms|
        ensures Match(ms[i], e)
      {
        assert more[i] == ms[i];
      }
    }
  }

  // ----- Printing -----

  const KEY := "attributes:\""
  const TYPE := "attributes.aggregate_type=\""
  const QUOTE := "\""
  const OR := " OR "
  const AND := " AND "
  const AGGREGATE_TYPE := "aggregate_type"

  function Sep(all: bool): string {
    if all then AND else OR
  }

  /** A separator before each piece. */
  function Tail(pieces: seq<string>, all: bool): string {
    if pieces == [] then "" else Sep(all) + (pieces[0] + Tail(pieces[1..], all))
  }

  /** The pieces with a separator between them. */
  function Joined(pieces: seq<string>, all: bool): string {
    if pieces == [] then "" else pieces[0] + Tail(pieces[1..], all)
  }

  function Pieces(m: Matcher): (pieces: seq<string>)
    ensures m.MatchEvents? || m.MatchAggregates? ==> |pieces| == |m.types|
    ensures m.MatchAny? || m.MatchAll? ==> |pieces| == |m.matchers|
    decreases m, 0
  {
    match m
    case MatchEvents(types) => seq(|types|, i requires 0 <= i < |types| => KEY + (types[i] + QUOTE))
    case MatchAggregates(types) => seq(|types|, i requires 0 <= i < |types| => TYPE + (types[i] + QUOTE))
    case MatchAny(matchers) => seq(|matchers|, i requires 0 <= i < |matchers| => "(" + (CreateFilter(matchers[i]) + ")"))
    case MatchAll(matchers) => seq(|matchers|, i requires 0 <= i < |matchers| => "(" + (CreateFilter(matchers[i]) + ")"))
    case Custom(_) => []
  }

  /** The filter of a matcher; a matcher of another type has none. */
  function CreateFilter(m: Matcher): string
    decreases m, 1
  {
    Joined(Pieces(m), m.MatchAll?)
  }

  // ----- Parsing -----

  datatype Expr =
    | HasKey(name: string)
    | TypeIs(name: string)
    | Join(all: bool, terms: seq<Expr>)

  predicate StartsWith(s: string, p: string) {
    |p| <= |s| && s[..|p|] == p
  }

  /** The text up to a quote, and the text after it. */
  function UpToQuote(s: string): (r: Option<(string, string)>)
    ensures r.Some? ==> |r.value.1| < |s|
  {
    if s == "" then None
    else if s[0] == '\"' then Some(("", s[1..]))
    else
      var r := UpToQuote(s[1..]);
      if r.None? then None else Some(([s[0]] + r.value.0, r.value.1))
  }

  function ParseTerm(s: string): (r: Option<(Expr, string)>)
    ensures r.Some? ==> |r.value.1| < |s|
    decreases |s|, 0
  {
    if StartsWith(s, "(") then
      var r := ParseExpr(s[1..]);
      if r.Some? && StartsWith(r.value.1, ")") then Some((r.value.0, r.value.1[1..])) else None
    else if StartsWith(s, KEY) then
      var r := UpToQuote(s[|KEY|..]);
      if r.None? then None else Some((HasKey(r.value.0), r.value.1))
    else if StartsWith(s, TYPE) then
      var r := UpToQuote(s[|TYPE|..]);
      if r.None? then None else Some((TypeIs(r.value.0), r.value.1))
    else None
  }

  /** One term, or several with the same operator; AND and OR do not mix without parentheses. */
  function ParseExpr(s: string): (r: Option<(Expr, string)>)
    ensures r.Some? ==> |r.value.1| < |s|
    decreases |s|, 1
  {
    var first := ParseTerm(s);
    if first.None? then None
    else
      var (term, rest) := first.value;
      if StartsWith(rest, OR) then ParseMore(false, [term], rest)
      else if StartsWith(rest, AND) then ParseMore(true, [term], rest)
      else Some((term, rest))
  }

  function ParseMore(all: bool, terms: seq<Expr>, s: string): (r: Option<(Expr, string)>)
    ensures r.Some? ==> |r.value.1| <= |s|
    decreases |s|, 2
  {
    if StartsWith(s, Sep(!all)) then None
    else if !StartsWith(s, Sep(all)) then Some((Join(all, terms), s))
    else
      var next := ParseTerm(s[|Sep(all)|..]);
      if next.None? then None else ParseMore(all, terms + [next.value.0], next.value.1)
  }

  function Parse(s: string): Option<Expr> {
    var r := ParseExpr(s);
    if r.Some? && r.value.1 == "" then Some(r.value.0) else None
  }

  // ----- Meaning -----

  type Attributes = map<string, string>

  /** The attributes published with an event: the later key wins. */
  function Published(e: Ev): Attributes {
    map[AGGREGATE_TYPE := e.at][e.etype := ""]
  }

  predicate Eval(x: Expr, attributes: Attributes) {
    match x
    case HasKey(name) => name in attributes
    case TypeIs(name) => AGGREGATE_TYPE in attributes && attributes[AGGREGATE_TYPE] == name
    case Join(all, terms) =>
      if all then forall i :: 0 <= i < |terms| ==> Eval(terms[i], attributes)
      else exists i :: 0 <= i < |terms| && Eval(terms[i], attributes)
  }

  // ----- Conditions on matchers -----

  predicate QuoteFree(name: string) {
    '\"' !in name
  }

  predicate NamesAreQuoteFree(m: Matcher) {
    match m
    case MatchEvents(types) => forall i :: 0 <= i < |types| ==> QuoteFree(types[i])
    case MatchAggregates(types) => forall i :: 0 <= i < |types| ==> QuoteFree(types[i])
    case MatchAny(matchers) => forall i :: 0 <= i < |matchers| ==> NamesAreQuoteFree(matchers[i])
    case MatchAll(matchers) => forall i :: 0 <= i < |matchers| ==> NamesAreQuoteFree(matchers[i])
    case Custom(_) => true
  }

  /** Built-in and non-empty, all the way down. */
  predicate Complete(m: Matcher) {
    match m
    case MatchEvents(types) => types != []
    case MatchAggregates(types) => types != []
    case MatchAny(matchers) => matchers != [] && forall i :: 0 <= i < |matchers| ==> Complete(matchers[i])
    case MatchAll(matchers) => matchers != [] && forall i :: 0 <= i < |matchers| ==> Complete(matchers[i])
    case Custom(_) => false
  }

  /** The expression that a matcher stands for. */
  function ExprOf(m: Matcher): Expr
    requires Complete(m)
    decreases m, 1
  {
    var terms := TermsOf(m);
    if |terms| == 1 then terms[0] else Join(m.MatchAll?, terms)
  }

  function TermsOf(m: Matcher): (terms: seq<Expr>)
    requires Complete(m)
    ensures |terms| == |Pieces(m)| > 0
    decreases m, 0
  {
    match m
    case MatchEvents(types) => seq(|types|, i requires 0 <= i < |types| => HasKey(types[i]))
    case MatchAggregates(types) => seq(|types|, i requires 0 <= i < |types| => TypeIs(types[i]))
    case MatchAny(matchers) => seq(|matchers|, i requires 0 <= i < |matchers| => ExprOf(matchers[i]))
    case MatchAll(matchers) => seq(|matchers|, i requires 0 <= i < |matchers| => ExprOf(matchers[i]))
  }

  // ----- Parsing what was printed -----

  /** Text after which an expression ends. */
  predicate Stops(after: string) {
    after == "" || after[0] == ')'
  }

  lemma PrefixOf(p: string, rest: string)
    ensures StartsWith(p + rest, p) && (p + rest)[|p|..] == rest
  {
  }

  lemma SeparatorsDiffer(all: bool, rest: string)
    ensures !StartsWith(Sep(all) + rest, Sep(!all))
  {
    assert (Sep(all) + rest)[1] == if all then 'A' else 'O';
  }

  lemma StopsAreNoSeparators(after: string, all: bool)
    requires Stops(after)
    ensures !StartsWith(after, Sep(all))
  {
    assert Sep(all)[0] == ' ';
  }

  lemma {:induction false} NameIsRead(name: string, after: string)
    requires QuoteFree(name)
    ensures UpToQuote(name + (QUOTE + after)) == Some((name, after))
  {
    var s := name + (QUOTE + after);
    if name == "" {
      assert s[0] == '\"' && s[1..] == after;
    } else {
      assert s[0] == name[0] && s[0] in name;
      assert s[1..] == name[1..] + (QUOTE + after);
      NameIsRead(name[1..], after);
      assert [name[0]] + name[1..] == name;
    }
  }

  lemma KeyIsRead(name: string, after: string)
    requires QuoteFree(name)
    ensures ParseTerm((KEY + (name + QUOTE)) + after) == Some((HasKey(name), after))
  {
    var s, rest := (KEY + (name + QUOTE)) + after, name + (QUOTE + after);
    assert s == KEY + rest;
    assert s[0] == 'a';
    PrefixOf(KEY, rest);
    NameIsRead(name, after);
  }

  lemma TypeIsRead(name: string, after: string)
    requires QuoteFree(name)
    ensures ParseTerm((TYPE + (name + QUOTE)) + after) == Some((TypeIs(name), after))
  {
    var s, rest := (TYPE + (name + QUOTE)) + after, name + (QUOTE + after);
    assert s == TYPE + rest;
    assert s[0] == 'a' && s[10] == '.' && KEY[10] == ':';
    PrefixOf(TYPE, rest);
    NameIsRead(name, after);
  }

  /** A parenthesised expression; if what is inside does not parse, neither does the group. */
  lemma GroupIsRead(inner: string, after: string)
    requires var r := ParseExpr(inner + (")" + after)); r.Some? ==> r.value.1 == ")" + after
    ensures ParseTerm(("(" + (inner + ")")) + after)
         == (var r := ParseExpr(inner + (")" + after)); if r.None? then None else Some((r.value.0, after)))
  {
    var close := ")" + after;
    assert ("(" + (inner + ")")) + after == "(" + (inner + close);
    PrefixOf("(", inner + close);
    PrefixOf(")", after);
  }

  lemma TailSplit(pieces: seq<string>, all: bool, after: string)
    requires pieces != []
    ensures Tail(pieces, all) + after == Sep(all) + (pieces[0] + (Tail(pieces[1..], all) + after))
  {
  }

  /** One more piece: the separator and the term are consumed. */
  lemma MoreStep(all: bool, acc: seq<Expr>, piece: string, rest: string)
    ensures var next := ParseTerm(piece + rest);
            ParseMore(all, acc, Sep(all) + (piece + rest))
              == if next.None? then None else ParseMore(all, acc + [next.value.0], next.value.1)
  {
    PrefixOf(Sep(all), piece + rest);
    SeparatorsDiffer(all, piece + rest);
  }

  lemma MoreEnds(all: bool, acc: seq<Expr>, after: string)
    requires Stops(after)
    ensures ParseMore(all, acc, after) == Some((Join(all, acc), after))
  {
    StopsAreNoSeparators(after, all);
    StopsAreNoSeparators(after, !all);
  }

  lemma ExprOfOne(piece: string, term: Expr, after: string)
    requires ParseTerm(piece + after) == Some((term, after)) && Stops(after)
    ensures ParseExpr(piece + after) == Some((term, after))
  {
    StopsAreNoSeparators(after, true);
    StopsAreNoSeparators(after, false);
  }

  lemma ExprOfMore(all: bool, piece: string, term: Expr, rest: string)
    requires ParseTerm(piece + (Sep(all) + rest)) == Some((term, Sep(all) + rest))
    ensures ParseExpr(piece + (Sep(all) + rest)) == ParseMore(all, [term], Sep(all) + rest)
  {
    PrefixOf(Sep(all), rest);
    SeparatorsDiffer(all, rest);
  }

  lemma JoinedSplit(pieces: seq<string>, all: bool, after: string)
    requires pieces != []
    ensures Joined(pieces, all) + after == pieces[0] + (Tail(pieces[1..], all) + after)
  {
  }

  /** Each piece is read as its term, whatever follows. */
  lemma {:induction false} PieceIsRead(m: Matcher, i: nat, after: string)
    requires Complete(m) && NamesAreQuoteFree(m) && i < |Pieces(m)|
    ensures ParseTerm(Pieces(m)[i] + after) == Some((TermsOf(m)[i], after))
    decreases m, 0
  {
    match m
    case MatchEvents(types) => KeyIsRead(types[i], after);
    case MatchAggregates(types) => TypeIsRead(types[i], after);
    case MatchAny(matchers) =>
      FilterIsRead(matchers[i], ")" + after);
      GroupIsRead(CreateFilter(matchers[i]), after);
    case MatchAll(matchers) =>
      FilterIsRead(matchers[i], ")" + after);
      GroupIsRead(CreateFilter(matchers[i]), after);
  }

  /** With the first i terms read, the rest of the pieces completes the list. */
  lemma {:induction false} MoreIsRead(m: Matcher, i: nat, after: string)
    requires Complete(m) && NamesAreQuoteFree(m) && i <= |Pieces(m)| && Stops(after)
    ensures ParseMore(m.MatchAll?, TermsOf(m)[..i], Tail(Pieces(m)[i..], m.MatchAll?) + after)
         == Some((Join(m.MatchAll?, TermsOf(m)), after))
    decreases m, 1, |Pieces(m)| - i
  {
    var all, pieces, terms := m.MatchAll?, Pieces(m)[i..], TermsOf(m);
    if i == |Pieces(m)| {
      assert Tail(pieces, all) + after == after && terms[..i] == terms;
      MoreEnds(all, terms, after);
    } else {
      var rest := Tail(Pieces(m)[i + 1..], all) + after;
      assert pieces[1..] == Pieces(m)[i + 1..] && pieces[0] == Pieces(m)[i];
      TailSplit(pieces, all, after);
      PieceIsRead(m, i, rest);
      MoreStep(all, terms[..i], pieces[0], rest);
      MoreIsRead(m, i + 1, after);
      assert terms[..i] + [terms[i]] == terms[..i + 1];
    }
  }

  /** The printed filter of a complete matcher parses to the matcher's expression. */
  lemma {:induction false} FilterIsRead(m: Matcher, after: string)
    requires Complete(m) && NamesAreQuoteFree(m) && Stops(after)
    ensures ParseExpr(CreateFilter(m) + after) == Some((ExprOf(m), after))
    decreases m, 2
  {
    var all, pieces, terms := m.MatchAll?, Pieces(m), TermsOf(m);
    var rest := Tail(pieces[1..], all) + after;
    JoinedSplit(pieces, all, after);
    PieceIsRead(m, 0, rest);
    if |pieces| == 1 {
      assert rest == after;
      ExprOfOne(pieces[0], terms[0], after);
    } else {
      TailSplit(pieces[1..], all, after);
      ExprOfMore(all, pieces[0], terms[0], pieces[1] + (Tail(pieces[1..][1..], all) + after));
      assert terms[..1] == [terms[0]];
      MoreIsRead(m, 1, after);
    }
  }

  // ----- Incomplete matchers -----

  /** The first child that is not complete. */
  function FirstIncomplete(matchers: seq<Matcher>): (k: nat)
    ensures k <= |matchers|
    ensures forall i :: 0 <= i < k ==> Complete(matchers[i])
    ensures k < |matchers| ==> !Complete(matchers[k])
  {
    if matchers == [] || !Complete(matchers[0]) then 0 else 1 + FirstIncomplete(matchers[1..])
  }

  lemma NothingIsRead(after: string)
    requires Stops(after)
    ensures ParseExpr("" + after).None?
  {
    assert "" + after == after;
    assert KEY[0] == 'a' && TYPE[0] == 'a';
  }

  /** A piece of an incomplete child does not parse. */
  lemma {:induction false} BadPieceFails(m: Matcher, i: nat, after: string)
    requires (m.MatchAny? || m.MatchAll?) && NamesAreQuoteFree(m) && i < |m.matchers| && !Complete(m.matchers[i])
    ensures ParseTerm(Pieces(m)[i] + after).None?
    decreases m, 0
  {
    BadFilterFails(m.matchers[i], ")" + after);
    GroupIsRead(CreateFilter(m.matchers[i]), after);
  }

  /** Reading on from piece i reaches the first incomplete child and fails there. */
  lemma {:induction false} BadMoreFails(m: Matcher, i: nat, acc: seq<Expr>, after: string)
    requires (m.MatchAny? || m.MatchAll?) && NamesAreQuoteFree(m)
    requires i <= FirstIncomplete(m.matchers) < |m.matchers|
    ensures ParseMore(m.MatchAll?, acc, Tail(Pieces(m)[i..], m.MatchAll?) + after).None?
    decreases m, 1, |m.matchers| - i
  {
    var all, pieces := m.MatchAll?, Pieces(m)[i..];
    var rest := Tail(Pieces(m)[i + 1..], all) + after;
    assert pieces[1..] == Pieces(m)[i + 1..];
    TailSplit(pieces, all, after);
    MoreStep(all, acc, pieces[0], rest);
    if i == FirstIncomplete(m.matchers) {
      BadPieceFails(m, i, rest);
    } else {
      GoodPieceIsRead(m, i, rest);
      BadMoreFails(m, i + 1, acc + [ExprOf(m.matchers[i])], after);
    }
  }

  lemma {:induction false} GoodPieceIsRead(m: Matcher, i: nat, after: string)
    requires (m.MatchAny? || m.MatchAll?) && NamesAreQuoteFree(m) && i < |m.matchers| && Complete(m.matchers[i])
    ensures ParseTerm(Pieces(m)[i] + after) == Some((ExprOf(m.matchers[i]), after))
  {
    FilterIsRead(m.matchers[i], ")" + after);
    GroupIsRead(CreateFilter(m.matchers[i]), after);
  }

  lemma {:induction false} BadFilterFails(m: Matcher, after: string)
    requires !Complete(m) && NamesAreQuoteFree(m) && Stops(after)
    ensures ParseExpr(CreateFilter(m) + after).None?
    decreases m, 2
  {
    if Pieces(m) == [] {
      NothingIsRead(after);
    } else {
      var all, pieces := m.MatchAll?, Pieces(m);
      JoinedSplit(pieces, all, after);
      var rest := Tail(pieces[1..], all) + after;
      if FirstIncomplete(m.matchers) == 0 {
        BadPieceFails(m, 0, rest);
      } else {
        GoodPieceIsRead(m, 0, rest);
        TailSplit(pieces[1..], all, after);
        ExprOfMore(all, pieces[0], ExprOf(m.matchers[0]), pieces[1] + (Tail(pieces[1..][1..], all) + after));
        BadMoreFails(m, 1, [ExprOf(m.matchers[0])], after);
      }
    }
  }

  /** A printed filter is well formed exactly when every node is built in and non-empty. */
  lemma FilterParsesIff(m: Matcher)
    requires NamesAreQuoteFree(m)
    ensures Parse(CreateFilter(m)) == if Complete(m) then Some(ExprOf(m)) else None
  {
    assert CreateFilter(m) + "" == CreateFilter(m);
    if Complete(m) {
      FilterIsRead(m, "");
    } else {
      BadFilterFails(m, "");
    }
  }

  // ----- What a filter lets through -----

  /** No event matcher is called as the attribute that carries the aggregate type. */
  predicate NoReservedName(m: Matcher) {
    match m
    case MatchEvents(types) => AGGREGATE_TYPE !in types
    case MatchAny(matchers) => forall i :: 0 <= i < |matchers| ==> NoReservedName(matchers[i])
    case MatchAll(matchers) => forall i :: 0 <= i < |matchers| ==> NoReservedName(matchers[i])
    case _ => true
  }

  /** The published attributes tell the event's types apart. */
  predicate Faithful(e: Ev) {
    e.etype != AGGREGATE_TYPE || e.at == ""
  }

  ghost predicate EvalAll(all: bool, terms: seq<Expr>, attributes: Attributes) {
    if all then forall i :: 0 <= i < |terms| ==> Eval(terms[i], attributes)
    else exists i :: 0 <= i < |terms| && Eval(terms[i], attributes)
  }

  lemma EvalList(m: Matcher, e: Ev)
    requires Complete(m)
    ensures Eval(ExprOf(m), Published(e)) <==> EvalAll(m.MatchAll?, TermsOf(m), Published(e))
  {
    var terms, attributes := TermsOf(m), Published(e);
    if |terms| == 1 {
      assert EvalAll(m.MatchAll?, terms, attributes) <==> Eval(terms[0], attributes);
    } else {
      assert Eval(Join(m.MatchAll?, terms), attributes) <==> EvalAll(m.MatchAll?, terms, attributes);
    }
  }

  /** A filter lets through everything that the matcher matches. */
  lemma {:induction false} FilterAdmitsMatches(m: Matcher, e: Ev)
    requires Complete(m) && Faithful(e)
    ensures Match(m, e) ==> Eval(ExprOf(m), Published(e))
  {
    EvalList(m, e);
    var terms := TermsOf(m);
    match m
    case MatchEvents(types) =>
      if Match(m, e) {
        var i :| 0 <= i < |types| && types[i] == e.etype;
        assert Eval(terms[i], Published(e));
      }
    case MatchAggregates(types) =>
      if Match(m, e) {
        var i :| 0 <= i < |types| && types[i] == e.at;
        assert Eval(terms[i], Published(e));
      }
    case MatchAny(matchers) =>
      forall i | 0 <= i < |matchers| { FilterAdmitsMatches(matchers[i], e); }
      if Match(m, e) {
        var i :| 0 <= i < |matchers| && Match(matchers[i], e);
        assert Eval(terms[i], Published(e));
      }
    case MatchAll(matchers) =>
      forall i | 0 <= i < |matchers| { FilterAdmitsMatches(matchers[i], e); }
  }

  /** And nothing else, if neither side uses the reserved name as an event type. */
  lemma {:induction false} FilterAdmitsOnlyMatches(m: Matcher, e: Ev)
    requires Complete(m) && NoReservedName(m) && e.etype != AGGREGATE_TYPE
    ensures Eval(ExprOf(m), Published(e)) ==> Match(m, e)
  {
    EvalList(m, e);
    var terms := TermsOf(m);
    match m
    case MatchEvents(types) =>
    case MatchAggregates(types) =>
    case MatchAny(matchers) =>
      forall i | 0 <= i < |matchers| { FilterAdmitsOnlyMatches(matchers[i], e); }
    case MatchAll(matchers) =>
      forall i | 0 <= i < |matchers|
        ensures Eval(terms[i], Published(e)) ==> Match(matchers[i], e)
      {
        FilterAdmitsOnlyMatches(matchers[i], e);
      }
  }

  /**
   Compilation preserves meaning: the printed filter of a complete matcher parses,
   and on the attributes of an event it evaluates exactly to Match.
   */
  lemma FilterPreservesMeaning(m: Matcher, e: Ev)
    requires Complete(m) && NamesAreQuoteFree(m) && NoReservedName(m) && e.etype != AGGREGATE_TYPE
    ensures var x := Parse(CreateFilter(m)); x.Some? && (Eval(x.value, Published(e)) <==> Match(m, e))
  {
    FilterParsesIff(m);
    FilterAdmitsMatches(m, e);
    FilterAdmitsOnlyMatches(m, e);
  }

  // ----- Subscribing and handling -----

  datatype SubscribeError = FilterTooLong | InvalidFilter

  /** AddHandler refuses long filters; the service refuses filters that do not parse. */
  function Subscribe(m: Matcher): Result<string, SubscribeError> {
    var filter := CreateFilter(m);
    if |filter| >= 256 then Err(FilterTooLong)
    else if filter != "" && Parse(filter).None? then Err(InvalidFilter)
    else Ok(filter)
  }

  /** An empty filter lets everything through; the handler checks the matcher again. */
  predicate Handled(m: Matcher, e: Ev)
    requires Subscribe(m).Ok?
  {
    var filter := CreateFilter(m);
    (filter == "" || Eval(Parse(filter).value, Published(e))) && Match(m, e)
  }

  /** Every matched event is handled, and no other: empty and custom matchers at the top included. */
  lemma HandledIffMatch(m: Matcher, e: Ev)
    requires NamesAreQuoteFree(m) && Subscribe(m).Ok? && Faithful(e)
    ensures Handled(m, e) <==> Match(m, e)
  {
    if CreateFilter(m) != "" {
      FilterParsesIff(m);
      FilterAdmitsMatches(m, e);
    }
  }

  /**
   An event type called as the reserved attribute overwrites the aggregate type,
   and such events are lost: matchers agree with handling for an event if and only
   if its published attributes are faithful.
   */
  lemma MatchersAgreeIff(e: Ev)
    requires QuoteFree(e.at) && |TYPE| + |e.at| + |QUOTE| < 256
    ensures Faithful(e) <==>
              forall m :: NamesAreQuoteFree(m) && Subscribe(m).Ok? ==> (Handled(m, e) <==> Match(m, e))
  {
    if Faithful(e) {
      forall m | NamesAreQuoteFree(m) && Subscribe(m).Ok?
        ensures Handled(m, e) <==> Match(m, e)
      {
        HandledIffMatch(m, e);
      }
    } else {
      var m := MatchAggregates([e.at]);
      assert Match(m, e) by { assert m.types[0] == e.at; }
      FilterParsesIff(m);
      assert Pieces(m) == [TYPE + (e.at + QUOTE)];
      assert Tail([], false) == "";
      assert CreateFilter(m) == TYPE + (e.at + QUOTE);
      assert ExprOf(m) == TypeIs(e.at);
      assert !Handled(m, e);
    }
  }

  // ----- What handlers receive -----

  /**
   Matchers without a filter, at the top: the subscription passes everything, and
   the second check decides.  An empty MatchAll receives every event, the other
   empty ones none, and a matcher of another type what it says itself.
   */
  lemma UnfilteredIsHandled(e: Ev, pred: Ev -> bool)
    ensures Subscribe(MatchAll([])) == Ok("") && Handled(MatchAll([]), e)
    ensures Subscribe(MatchAny([])) == Ok("") && !Handled(MatchAny([]), e)
    ensures Subscribe(MatchEvents([])) == Ok("") && !Handled(MatchEvents([]), e)
    ensures Subscribe(MatchAggregates([])) == Ok("") && !Handled(MatchAggregates([]), e)
    ensures Subscribe(Custom(pred)) == Ok("") && (Handled(Custom(pred), e) <==> pred(e))
  {
    assert Pieces(Custom(pred)) == [] && CreateFilter(Custom(pred)) == "";
    MatchNothing(e);
  }

  /** The filter texts, spelt out: of one type, of several, and of combinations. */
  lemma TypeText(t: string)
    ensures CreateFilter(MatchEvents([t])) == "attributes:\"" + t + "\""
    ensures CreateFilter(MatchAggregates([t])) == "attributes.aggregate_type=\"" + t + "\""
  {
    JoinedOne(KEY + (t + QUOTE), false);
    JoinedOne(TYPE + (t + QUOTE), false);
    assert Pieces(MatchEvents([t])) == [KEY + (t + QUOTE)];
    assert Pieces(MatchAggregates([t])) == [TYPE + (t + QUOTE)];
  }

  lemma TwoTypesText(t: string, u: string)
    ensures CreateFilter(MatchEvents([t, u])) == CreateFilter(MatchEvents([t])) + " OR " + CreateFilter(MatchEvents([u]))
    ensures CreateFilter(MatchAggregates([t, u])) == CreateFilter(MatchAggregates([t])) + " OR " + CreateFilter(MatchAggregates([u]))
  {
    TypeText(t);
    TypeText(u);
    assert Pieces(MatchEvents([t, u])) == [KEY + (t + QUOTE), KEY + (u + QUOTE)];
    assert Pieces(MatchAggregates([t, u])) == [TYPE + (t + QUOTE), TYPE + (u + QUOTE)];
    JoinedTwo(KEY + (t + QUOTE), KEY + (u + QUOTE), false);
    JoinedTwo(TYPE + (t + QUOTE), TYPE + (u + QUOTE), false);
  }

  lemma AnyText(m: Matcher, n: Matcher)
    ensures CreateFilter(MatchAny([m, n])) == ("(" + (CreateFilter(m) + ")")) + " OR " + ("(" + (CreateFilter(n) + ")"))
  {
    var a, b := "(" + (CreateFilter(m) + ")"), "(" + (CreateFilter(n) + ")");
    assert Pieces(MatchAny([m, n])) == [a, b];
    JoinedTwo(a, b, false);
  }

  lemma AllText(m: Matcher, n: Matcher)
    ensures CreateFilter(MatchAll([m, n])) == ("(" + (CreateFilter(m) + ")")) + " AND " + ("(" + (CreateFilter(n) + ")"))
  {
    var a, b := "(" + (CreateFilter(m) + ")"), "(" + (CreateFilter(n) + ")");
    assert Pieces(MatchAll([m, n])) == [a, b];
    JoinedTwo(a, b, true);
  }

  lemma JoinedOne(a: string, all: bool)
    ensures Joined([a], all) == a
  {
    assert Tail([a][1..], all) == "";
  }

  lemma JoinedTwo(a: string, b: string, all: bool)
    ensures Joined([a, b], all) == a + (if all then " AND " else " OR ") + b
  {
    assert [a, b][1..] == [b] && [b][1..] == [];
    assert Tail([], all) == "" && Tail([b], all) == Sep(all) + (b + "");
  }

  /** A subscription is refused exactly for a filter of 256 characters or more, or one with an incomplete part. */
  lemma SubscribeIff(m: Matcher)
    requires NamesAreQuoteFree(m)
    ensures Subscribe(m).Ok? <==> |CreateFilter(m)| <= 255 && (CreateFilter(m) == "" || Complete(m))
    ensures Subscribe(m) == Err(FilterTooLong) <==> |CreateFilter(m)| >= 256
  {
    FilterParsesIff(m);
  }
}
