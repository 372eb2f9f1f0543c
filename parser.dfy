/**
 * The grammar of the engine and the behaviour of PLY's parser on it.
 *
 * The grammar has seven productions, each a fixed sequence of token kinds.
 * `Match` is the whole-sequence reading: a token list is a query exactly when
 * its kinds spell one of the seven shapes.  `Attempt` is one run of the LALR
 * automaton from its start state, and `Recover` adds PLY's recovery for a
 * grammar without `error` productions: on a syntax error at a real token the
 * partial parse and that token are discarded and parsing restarts with the
 * next token; a syntax error at the end of input ends the parse with no value.
 */
module Parser {
  import opened Wrappers
  import opened Lexer

  /** The value each production hands to its action. */
  datatype Query =
    | CalligrapherDetail(name: string)      // 1. FIND CALLIGRAPHER CHINESE_NAME
    | WorkRepresentative(name: string)      // 2. FIND CHINESE_NAME WORK
    | Direct(name: string)                  // 3. FIND CHINESE_NAME
    | StyleDetail(name: string)             // 4. FIND STYLE CHINESE_NAME
    | CalligrapherStyle(name: string)       // 5. FIND CHINESE_NAME STYLE
    | DynastyCalligraphers(dynasty: string) // 6. FIND DYNASTY CALLIGRAPHER
    | CalligrapherInfo(name: string)        // 7. FIND CHINESE_NAME INFO

  /** The right-hand sides of the seven productions, in the order above. */
  const Shapes: seq<seq<Kind>> := [
    [FIND, CALLIGRAPHER, CHINESE_NAME],
    [FIND, CHINESE_NAME, WORK],
    [FIND, CHINESE_NAME],
    [FIND, STYLE, CHINESE_NAME],
    [FIND, CHINESE_NAME, STYLE],
    [FIND, DYNASTY, CALLIGRAPHER],
    [FIND, CHINESE_NAME, INFO]
  ]

  /** The production a query comes from, as an index into `Shapes`. */
  function Production(q: Query): (p: nat)
    ensures p < |Shapes|
  {
    match q
    case CalligrapherDetail(_) => 0
    case WorkRepresentative(_) => 1
    case Direct(_) => 2
    case StyleDetail(_) => 3
    case CalligrapherStyle(_) => 4
    case DynastyCalligraphers(_) => 5
    case CalligrapherInfo(_) => 6
  }

  /** The position in its production of the token whose value the action reads. */
  function Slot(q: Query): (i: nat)
    ensures i < |Shapes[Production(q)]|
  {
    match q
    case CalligrapherDetail(_) => 2
    case StyleDetail(_) => 2
    case _ => 1
  }

  /** The value the action reads. */
  function Operand(q: Query): (r: string)
  {
    match q
    case CalligrapherDetail(n) => n
    case WorkRepresentative(n) => n
    case Direct(n) => n
    case StyleDetail(n) => n
    case CalligrapherStyle(n) => n
    case DynastyCalligraphers(d) => d
    case CalligrapherInfo(n) => n
  }

  /** The kinds of a token list. */
  function Kinds(ts: seq<Token>): (ks: seq<Kind>)
    ensures |ks| == |ts| && forall i :: 0 <= i < |ts| ==> ks[i] == ts[i].kind
  {
    seq(|ts|, i requires 0 <= i < |ts| => ts[i].kind)
  }

  /** The query, if any, that the last two or three tokens of a production make. */
  function Tail(a: Token, b: Token): (r: Option<Query>)
  {
    match (a.kind, b.kind)
    case (CALLIGRAPHER, CHINESE_NAME) => Some(CalligrapherDetail(b.value))
    case (CHINESE_NAME, WORK) => Some(WorkRepresentative(a.value))
    case (STYLE, CHINESE_NAME) => Some(StyleDetail(b.value))
    case (CHINESE_NAME, STYLE) => Some(CalligrapherStyle(a.value))
    case (DYNASTY, CALLIGRAPHER) => Some(DynastyCalligraphers(a.value))
    case (CHINESE_NAME, INFO) => Some(CalligrapherInfo(a.value))
    case _ => None
  }

  /** The whole token list read as exactly one production (`p_query`'s alternatives). */
  function Match(ts: seq<Token>): (r: Option<Query>)
  {
    if |ts| == 2 && ts[0].kind == FIND && ts[1].kind == CHINESE_NAME then Some(Direct(ts[1].value))
    else if |ts| == 3 && ts[0].kind == FIND then Tail(ts[1], ts[2])
    else None
  }

  /**
   * The shape match in both directions: a token list reads as `q` exactly
   * when its kinds are `q`'s production and the token in `q`'s slot
   * carries `q`'s operand.
   */
  lemma MatchShape(ts: seq<Token>, q: Query)
    ensures Match(ts) == Some(q) <==>
      (Kinds(ts) == Shapes[Production(q)] && ts[Slot(q)].value == Operand(q))
  {
    if Kinds(ts) == Shapes[Production(q)] {
      assert |ts| == |Shapes[Production(q)]|;
      assert forall i :: 0 <= i < |ts| ==> ts[i].kind == Shapes[Production(q)][i];
    }
    if Match(ts) == Some(q) {
      assert Kinds(ts) == Shapes[Production(q)];
    }
  }

  /** No two productions have the same right-hand side: the grammar is unambiguous. */
  lemma ShapesDistinct(p: nat, p': nat)
    requires p < |Shapes| && p' < |Shapes| && p != p'
    ensures Shapes[p] != Shapes[p']
  {
    assert Shapes[p] != Shapes[p'] by {
      if |Shapes[p]| == |Shapes[p']| {
        assert Shapes[p][1] != Shapes[p'][1] || Shapes[p][2] != Shapes[p'][2];
      }
    }
  }

  // ---------------------------------------------------------------------
  // One run of the automaton
  // ---------------------------------------------------------------------

  /** A list of kinds that some production starts with (the automaton can still accept). */
  ghost predicate Viable(ks: seq<Kind>)
  {
    exists p :: 0 <= p < |Shapes| && ks <= Shapes[p]
  }

  /**
   * How a run from the start state ends: the whole input is accepted, the
   * end of input arrives where a token was needed, or the token at `index`
   * has no action.
   */
  datatype Outcome = Accepted(query: Query) | EndError | ErrorAt(index: nat)

  /** The run is accepted once the last token of a three-token production arrives and nothing follows. */
  function Finish(q: Query, ts: seq<Token>): (r: Outcome)
    requires |ts| >= 3
  {
    if |ts| == 3 then Accepted(q) else ErrorAt(3)
  }

  /** One run of the parser on a token list. */
  function Attempt(ts: seq<Token>): (o: Outcome)
    ensures o.ErrorAt? ==> o.index < |ts|
  {
    if |ts| == 0 then EndError
    else if ts[0].kind != FIND then ErrorAt(0)
    else if |ts| == 1 then EndError
    else match ts[1].kind
      case CHINESE_NAME =>
        if |ts| == 2 then Accepted(Direct(ts[1].value))
        else if ts[2].kind in {WORK, STYLE, INFO} then Finish(Tail(ts[1], ts[2]).value, ts)
        else ErrorAt(2)
      case CALLIGRAPHER =>
        if |ts| == 2 then EndError
        else if ts[2].kind == CHINESE_NAME then Finish(CalligrapherDetail(ts[2].value), ts)
        else ErrorAt(2)
      case STYLE =>
        if |ts| == 2 then EndError
        else if ts[2].kind == CHINESE_NAME then Finish(StyleDetail(ts[2].value), ts)
        else ErrorAt(2)
      case DYNASTY =>
        if |ts| == 2 then EndError
        else if ts[2].kind == CALLIGRAPHER then Finish(DynastyCalligraphers(ts[1].value), ts)
        else ErrorAt(2)
      case _ => ErrorAt(1)
  }

  /** A run accepts exactly the token lists that read as one production, with the same query. */
  lemma AttemptAccepts(ts: seq<Token>)
    ensures Attempt(ts).Accepted? <==> Match(ts).Some?
    ensures Attempt(ts).Accepted? ==> Attempt(ts).query == Match(ts).value
  {
  }

  /** A run ends at the end of input exactly when the input is an unfinished start of a production. */
  lemma AttemptEndError(ts: seq<Token>)
    ensures Attempt(ts) == EndError <==> (Viable(Kinds(ts)) && Match(ts) == None)
  {
    var ks := Kinds(ts);
    if Attempt(ts) == EndError {
      if |ts| == 0 {
        assert ks <= Shapes[0];
      } else if |ts| == 1 {
        assert ks <= Shapes[0];
      } else {
        var p := if ts[1].kind == CALLIGRAPHER then 0 else if ts[1].kind == STYLE then 3 else 5;
        assert ks <= Shapes[p];
      }
    }
    if Viable(ks) && Match(ts) == None {
      var p :| 0 <= p < |Shapes| && ks <= Shapes[p];
      assert |ts| <= 3;
    }
  }

  /**
   * A run stops at the first token that no production can continue with:
   * the tokens before it start some production and with it they start none.
   */
  lemma AttemptErrorAt(ts: seq<Token>)
    requires Attempt(ts).ErrorAt?
    ensures Viable(Kinds(ts[..Attempt(ts).index]))
    ensures !Viable(Kinds(ts[..Attempt(ts).index + 1]))
  {
    var i := Attempt(ts).index;
    var before := Kinds(ts[..i]);
    var upto := Kinds(ts[..i + 1]);
    assert forall j :: 0 <= j < i ==> before[j] == ts[j].kind;
    assert forall j :: 0 <= j <= i ==> upto[j] == ts[j].kind;
    if i == 0 {
      assert before <= Shapes[0];
    } else if i == 1 {
      assert before <= Shapes[0];
    } else if i == 2 {
      var p := match ts[1].kind
        case CALLIGRAPHER => 0
        case STYLE => 3
        case DYNASTY => 5
        case _ => 1;
      assert before <= Shapes[p];
    } else {
      assert i == 3;
      assert Match(ts[..3]).Some?;
      MatchShape(ts[..3], Match(ts[..3]).value);
      assert before <= Shapes[Production(Match(ts[..3]).value)];
    }
    forall p | 0 <= p < |Shapes|
      ensures !(upto <= Shapes[p])
    {
    }
  }

  // ---------------------------------------------------------------------
  // Recovery
  // ---------------------------------------------------------------------

  /**
   * PLY's parse: a run that is accepted gives its query; one that meets
   * the end of input gives nothing; one that fails at a token starts again
   * after that token.
   */
  function Recover(ts: seq<Token>): (r: Option<Query>)
    decreases |ts|
  {
    match Attempt(ts)
    case Accepted(q) => Some(q)
    case EndError => None
    case ErrorAt(i) => Recover(ts[i + 1..])
  }

  /** A token list that reads as one production is parsed as that production. */
  lemma RecoverMatch(ts: seq<Token>)
    requires Match(ts).Some?
    ensures Recover(ts) == Match(ts)
  {
    AttemptAccepts(ts);
  }

  /** Without a FIND token nothing is ever accepted. */
  lemma {:induction false} RecoverNoFind(ts: seq<Token>)
    requires forall i :: 0 <= i < |ts| ==> ts[i].kind != FIND
    ensures Recover(ts) == None
    decreases |ts|
  {
    if |ts| > 0 {
      assert Attempt(ts) == ErrorAt(0);
      RecoverNoFind(ts[1..]);
    }
  }

  /**
   * When FIND can only come first, the recovering parser and the
   * whole-sequence reading agree.
   */
  lemma RecoverSingleFind(ts: seq<Token>)
    requires forall i :: 1 <= i < |ts| ==> ts[i].kind != FIND
    ensures Recover(ts) == Match(ts)
  {
    AttemptAccepts(ts);
    match Attempt(ts)
    case Accepted(_) =>
    case EndError =>
    case ErrorAt(i) =>
      var rest := ts[i + 1..];
      assert forall j :: 0 <= j < |rest| ==> rest[j] == ts[i + 1 + j];
      RecoverNoFind(rest);
  }

  /** Whatever the parser returns is the reading of some suffix of the tokens. */
  lemma {:induction false} RecoverSuffix(ts: seq<Token>)
    requires Recover(ts).Some?
    ensures exists k :: 0 <= k <= |ts| && Match(ts[k..]) == Recover(ts)
    decreases |ts|
  {
    AttemptAccepts(ts);
    match Attempt(ts)
    case Accepted(_) =>
      assert ts[0..] == ts;
    case ErrorAt(i) =>
      var rest := ts[i + 1..];
      RecoverSuffix(rest);
      var k :| 0 <= k <= |rest| && Match(rest[k..]) == Recover(rest);
      assert rest[k..] == ts[i + 1 + k..];
  }

  /**
   * Recovery lets a query through that the whole-sequence reading refuses:
   * FIND FIND FIND NAME loses its first two tokens to one error and then
   * parses as production 3.
   */
  lemma RecoverAfterRepeatedFind(f: Token, n: Token)
    requires f.kind == FIND && n.kind == CHINESE_NAME
    ensures Match([f, f, f, n]) == None
    ensures Recover([f, f, f, n]) == Some(Direct(n.value))
  {
    var ts := [f, f, f, n];
    assert Attempt(ts) == ErrorAt(1);
    assert ts[2..] == [f, n];
  }
}
