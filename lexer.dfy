/**
 * The tokenizer: PLY's lexer driven by the engine's token rules.
 *
 * At each token start the lexer first drops a character of `t_ignore`;
 * otherwise it tries the master pattern, which is the alternation of the
 * keyword rules in the order the rules are defined (and, inside a rule, in
 * the order its alternatives are written), followed by the name rule.
 * A character that nothing matches is dropped by the error rule.
 */
module Lexer {
  import opened Wrappers

  /** The token names of the engine. */
  datatype Kind = FIND | CALLIGRAPHER | WORK | STYLE | DYNASTY | INFO | CHINESE_NAME

  datatype Token = Token(kind: Kind, value: string)

  /** `t_ignore`: blank, tab, carriage return, line feed and the particle 的. */
  const Ignored: string := " \t\r\n的"

  /**
   * The alternatives of the keyword rules `t_CALLIGRAPHER`, `t_WORK`,
   * `t_STYLE`, `t_DYNASTY`, `t_INFO` and `t_FIND`, flattened in the order
   * the master pattern tries them.
   */
  const Keywords: seq<(Kind, string)> := [
    (CALLIGRAPHER, "书法家"), (CALLIGRAPHER, "书家"), (CALLIGRAPHER, "书法大师"), (CALLIGRAPHER, "书法名家"),
    (WORK, "作品"), (WORK, "书法作品"), (WORK, "著名作品"), (WORK, "墨宝"), (WORK, "代表作"),
    (STYLE, "风格"), (STYLE, "书体"), (STYLE, "字体"), (STYLE, "书法风格"), (STYLE, "书风"),
    (DYNASTY, "唐代"), (DYNASTY, "宋代"), (DYNASTY, "晋代"), (DYNASTY, "明代"), (DYNASTY, "清代"),
    (DYNASTY, "唐朝"), (DYNASTY, "宋朝"), (DYNASTY, "晋朝"), (DYNASTY, "明朝"), (DYNASTY, "清朝"),
    (DYNASTY, "东晋"),
    (INFO, "信息"),
    (FIND, "查询"), (FIND, "查找"), (FIND, "搜索"), (FIND, "找"), (FIND, "请问"),
    (FIND, "我想知道"), (FIND, "了解"), (FIND, "显示"), (FIND, "展示")
  ]

  /**
   * The character class of `t_CHINESE_NAME`, character by character as
   * written (repeats included): the characters of the calligraphers' names,
   * then of the work titles, then of the style names.
   */
  predicate InNameClass(c: char)
  {
    c == '王' || c == '羲' || c == '之' || c == '颜' || c == '真' || c == '卿' || c == '苏' || c == '轼' ||
    c == '柳' || c == '公' || c == '权' || c == '张' || c == '旭' || c == '欧' || c == '阳' || c == '询' ||
    c == '兰' || c == '亭' ||
    c == '序' || c == '黄' || c == '庭' || c == '经' || c == '祭' || c == '侄' || c == '文' || c == '稿' ||
    c == '多' || c == '宝' || c == '塔' || c == '碑' || c == '黄' || c == '州' || c == '寒' || c == '食' ||
    c == '诗' || c == '帖' || c == '玄' || c == '秘' || c == '塔' || c == '碑' || c == '神' || c == '策' ||
    c == '军' || c == '碑' || c == '古' || c == '诗' || c == '四' || c == '帖' || c == '九' || c == '成' ||
    c == '宫' || c == '醴' || c == '泉' || c == '铭' ||
    c == '行' || c == '书' || c == '楷' || c == '书' || c == '草' || c == '书' || c == '隶' || c == '书'
  }

  /** `dynasty_map` of `t_DYNASTY`. */
  const DynastyMap: map<string, string> :=
    map["唐朝" := "唐代", "宋朝" := "宋代", "晋朝" := "晋代", "明朝" := "明代", "清朝" := "清代"]

  /**
   * `dynasty_map.get(v, v)`: a form ending in 朝 that the map knows becomes
   * the same era ending in 代; every other form is kept.
   */
  function NormalizeDynasty(v: string): (r: string)
    ensures r != v <==> v in {"唐朝", "宋朝", "晋朝", "明朝", "清朝"}
    ensures r != v ==> |r| == |v| == 2 && r[0] == v[0] && v[1] == '朝' && r[1] == '代'
  {
    if v in DynastyMap then DynastyMap[v] else v
  }


  // ---------------------------------------------------------------------
  // The master pattern, matched at the start of the remaining input
  // ---------------------------------------------------------------------

  /** Every keyword alternative is non-empty and of a keyword kind. */
  lemma KeywordShapes()
    ensures forall k :: 0 <= k < |Keywords| ==>
      Keywords[k].0 != CHINESE_NAME && |Keywords[k].1| > 0
  {
  }

  /** Keyword alternative `k` matches at the start of `rest`. */
  predicate KeywordAt(rest: string, k: nat)
  {
    k < |Keywords| && Keywords[k].1 <= rest
  }

  /** `k` is the alternative the master pattern picks: it matches and none before it does. */
  ghost predicate FirstMatchingKeyword(rest: string, k: nat)
  {
    KeywordAt(rest, k) && forall j :: 0 <= j < k ==> !KeywordAt(rest, j)
  }

  /** The first alternative, from `k` on, that matches at the start of `rest`. */
  function FirstKeyword(rest: string, k: nat): (r: Option<nat>)
    decreases |Keywords| - k
    ensures r.Some? ==> k <= r.value && KeywordAt(rest, r.value)
    ensures forall j :: k <= j < (if r.Some? then r.value else |Keywords|) ==> !KeywordAt(rest, j)
  {
    if k >= |Keywords| then None
    else if KeywordAt(rest, k) then Some(k)
    else FirstKeyword(rest, k + 1)
  }

  /** The length of the longest run of name characters at the start of `rest`. */
  function NameRun(rest: string): (n: nat)
    ensures n <= |rest|
  {
    if |rest| > 0 && InNameClass(rest[0]) then 1 + NameRun(rest[1..]) else 0
  }

  /** The run is all name characters and stops only at the end or at a non-name character. */
  lemma {:induction false} NameRunMaximal(rest: string)
    ensures forall i :: 0 <= i < NameRun(rest) ==> InNameClass(rest[i])
    ensures NameRun(rest) == |rest| || !InNameClass(rest[NameRun(rest)])
  {
    if |rest| > 0 && InNameClass(rest[0]) {
      NameRunMaximal(rest[1..]);
    }
  }

  /** One step of the lexer at a token start. */
  datatype Step =
    | Ignore                          // a character of t_ignore
    | Drop                            // t_error: skip one character
    | Emit(token: Token, length: nat) // a token from `length` characters

  /** The token a rule's action returns for matched text: t_DYNASTY rewrites its value. */
  function RuleAction(kind: Kind, text: string): (r: Token)
  {
    Token(kind, if kind == DYNASTY then NormalizeDynasty(text) else text)
  }

  /**
   * The lexer's step at the start of `rest`. Filler is ignored first; then
   * the master pattern is tried: the first matching keyword alternative
   * wins, even where a longer name run starts; then a maximal name run; a
   * character nothing matches is dropped, and only then.
   */
  function LexStep(rest: string): (r: Step)
    requires |rest| > 0
    ensures r.Emit? ==> 0 < r.length <= |rest|
  {
    if rest[0] in Ignored then Ignore
    else match FirstKeyword(rest, 0)
      case Some(k) =>
        KeywordShapes();
        Emit(RuleAction(Keywords[k].0, Keywords[k].1), |Keywords[k].1|)
      case None =>
        var n := NameRun(rest);
        if n > 0 then Emit(RuleAction(CHINESE_NAME, rest[..n]), n) else Drop
  }

  /**
   * The precedence of the rules at a token start: filler is ignored, and
   * only filler; a character is dropped exactly when no rule matches it; a
   * name token is the maximal run and is produced only where no keyword
   * alternative matches; a keyword token comes from the first alternative
   * that matches, with its dynasty value normalized.
   */
  lemma LexStepPrecedence(rest: string)
    requires |rest| > 0
    ensures LexStep(rest).Ignore? <==> rest[0] in Ignored
    ensures LexStep(rest).Drop? <==>
      rest[0] !in Ignored && !InNameClass(rest[0]) && forall k :: !KeywordAt(rest, k)
    ensures LexStep(rest).Emit? && LexStep(rest).token.kind == CHINESE_NAME ==>
      (forall k :: !KeywordAt(rest, k)) &&
      LexStep(rest).token.value == rest[..LexStep(rest).length] &&
      (forall i :: 0 <= i < LexStep(rest).length ==> InNameClass(rest[i])) &&
      (LexStep(rest).length == |rest| || !InNameClass(rest[LexStep(rest).length]))
    ensures LexStep(rest).Emit? && LexStep(rest).token.kind != CHINESE_NAME ==>
      exists k: nat :: FirstMatchingKeyword(rest, k) &&
        Keywords[k].0 == LexStep(rest).token.kind &&
        LexStep(rest).length == |Keywords[k].1| &&
        LexStep(rest).token.value == RuleAction(Keywords[k].0, Keywords[k].1).value
  {
    KeywordShapes();
    NameRunMaximal(rest);
    if rest[0] !in Ignored {
      var fk := FirstKeyword(rest, 0);
      if fk.Some? {
        assert FirstMatchingKeyword(rest, fk.value);
      }
    }
  }

  /** The first characters of the alternatives before the FIND rule's. */
  const OtherHeads: string := "书作著墨代风字唐宋晋明清东信"

  /** The FIND alternatives come last, at 26 to 34, and the first characters of all are known. */
  lemma KeywordHeads()
    ensures forall j :: 0 <= j < 26 ==>
      Keywords[j].0 != FIND && |Keywords[j].1| > 0 && Keywords[j].1[0] in OtherHeads
    ensures forall j :: 26 <= j < |Keywords| ==>
      Keywords[j].0 == FIND && |Keywords[j].1| > 0 && Keywords[j].1[0] in FindHeads
  {
  }

  /** The DYNASTY alternatives are those at 14 to 24. */
  lemma DynastyAlternatives()
    ensures forall k :: 0 <= k < |Keywords| ==> (Keywords[k].0 == DYNASTY <==> 14 <= k < 25)
  {
  }

  /** The first characters of the FIND alternatives; none starts another alternative. */
  const FindHeads: string := "查搜找请我了显展"

  lemma HeadsDisjoint(c: char)
    requires c in FindHeads
    ensures c !in OtherHeads
  {
  }

  /** `w` and `r` differ in one of their first three characters. */
  predicate HeadsDiffer(w: string, r: string)
  {
    (|w| > 0 && |r| > 0 && w[0] != r[0]) ||
    (|w| > 1 && |r| > 1 && w[1] != r[1]) ||
    (|w| > 2 && |r| > 2 && w[2] != r[2])
  }

  /** Alternative `k` is picked when it matches and every earlier one differs early on. */
  lemma FirstKeywordByHeads(rest: string, k: nat)
    requires KeywordAt(rest, k)
    requires forall j :: 0 <= j < k ==> HeadsDiffer(Keywords[j].1, rest)
    ensures FirstKeyword(rest, 0) == Some(k)
  {
    forall j | 0 <= j < k
      ensures !KeywordAt(rest, j)
    {
      assert HeadsDiffer(Keywords[j].1, rest);
    }
    FirstKeywordIs(rest, k);
  }

  /** No alternative is picked when every one differs early on. */
  lemma NoKeywordByHeads(rest: string)
    requires forall j :: 0 <= j < |Keywords| ==> HeadsDiffer(Keywords[j].1, rest)
    ensures FirstKeyword(rest, 0) == None
  {
  }

  // ---------------------------------------------------------------------
  // The token stream
  // ---------------------------------------------------------------------

  /** A token the rules can produce: a name run, or a keyword (dynasties normalized). */
  ghost predicate ValidToken(t: Token)
  {
    if t.kind == CHINESE_NAME then
      |t.value| > 0 && forall i :: 0 <= i < |t.value| ==> InNameClass(t.value[i])
    else
      exists k :: 0 <= k < |Keywords| && Keywords[k].0 == t.kind &&
        t.value == RuleAction(t.kind, Keywords[k].1).value
  }

  /** How many characters a step consumes: a dropped or ignored character is one. */
  function Consumed(step: Step): (r: nat)
  {
    if step.Emit? then step.length else 1
  }

  /** The tokens a step contributes. */
  function Emitted(step: Step): (r: seq<Token>)
  {
    if step.Emit? then [step.token] else []
  }

  /** The tokens the lexer produces for `s`; lexing never fails. */
  function Lex(s: string): (r: seq<Token>)
    decreases |s|
  {
    if |s| == 0 then []
    else
      var step := LexStep(s);
      Emitted(step) + Lex(s[Consumed(step)..])
  }

  lemma LexUnfold(s: string)
    requires |s| > 0
    ensures Consumed(LexStep(s)) <= |s|
    ensures Lex(s) == Emitted(LexStep(s)) + Lex(s[Consumed(LexStep(s))..])
  {
  }

  lemma LexKeyword(rest: string, k: nat)
    requires |rest| > 0 && rest[0] !in Ignored && FirstKeyword(rest, 0) == Some(k)
    ensures 0 < |Keywords[k].1| <= |rest|
    ensures Lex(rest) == [RuleAction(Keywords[k].0, Keywords[k].1)] + Lex(rest[|Keywords[k].1|..])
  {
    KeywordShapes();
  }

  lemma LexNameOrDrop(rest: string)
    requires |rest| > 0 && rest[0] !in Ignored && FirstKeyword(rest, 0).None?
    ensures NameRun(rest) > 0 ==>
      Lex(rest) == [Token(CHINESE_NAME, rest[..NameRun(rest)])] + Lex(rest[NameRun(rest)..])
    ensures NameRun(rest) == 0 ==> Lex(rest) == Lex(rest[1..])
  {
  }

  /** A step's token, when there is one, is one the rules can produce. */
  lemma StepValid(rest: string)
    requires |rest| > 0
    ensures LexStep(rest).Emit? ==> ValidToken(LexStep(rest).token)
  {
    if rest[0] !in Ignored {
      KeywordShapes();
      match FirstKeyword(rest, 0)
      case Some(k) =>
        assert Keywords[k].0 != CHINESE_NAME;
      case None =>
        var n := NameRun(rest);
        NameRunMaximal(rest);
        assert forall i :: 0 <= i < n ==> rest[..n][i] == rest[i];
    }
  }

  /** Every token of the stream is a name run or the value of a keyword alternative. */
  lemma {:induction false} LexValid(s: string)
    ensures forall i :: 0 <= i < |Lex(s)| ==> ValidToken(Lex(s)[i])
    decreases |s|
  {
    if |s| > 0 {
      LexUnfold(s);
      StepValid(s);
      LexValid(s[Consumed(LexStep(s))..]);
    }
  }

  /**
   * One turn of the scan at `pos`: skip a filler character, or run the
   * master pattern and the matching rule's action, or let the error rule
   * skip one character. Returns the tokens produced and the new position.
   */
  method ScanAt(s: string, pos: nat) returns (produced: seq<Token>, next: nat)
    requires pos < |s|
    ensures produced == Emitted(LexStep(s[pos..]))
    ensures next == pos + Consumed(LexStep(s[pos..]))
  {
    var rest := s[pos..];
    if s[pos] in Ignored {
      produced, next := [], pos + 1;
    } else {
      var k := FirstKeyword(rest, 0);
      if k.Some? {
        var (kind, text) := Keywords[k.value];
        produced, next := [RuleAction(kind, text)], pos + |text|;
      } else {
        var n := NameRun(rest);
        if n > 0 {
          produced, next := [Token(CHINESE_NAME, rest[..n])], pos + n;
        } else {
          produced, next := [], pos + 1;
        }
      }
    }
  }

  /**
   * The scan loop: advance a position through `s` from 0 (a fresh lexer
   * state on every call) and collect the tokens the rules return.
   */
  method Tokenize(s: string) returns (ts: seq<Token>)
    ensures ts == Lex(s)
  {
    var pos := 0;
    ts := [];
    while pos < |s|
      invariant pos <= |s|
      invariant ts + Lex(s[pos..]) == Lex(s)
      decreases |s| - pos
    {
      var produced, next := ScanAt(s, pos);
      LexAt(s, pos);
      assert s[next..] == s[pos + Consumed(LexStep(s[pos..]))..];
      AppendAssoc(ts, produced, Lex(s[next..]));
      ts, pos := ts + produced, next;
    }
  }

  /** Lexing from a position is one step followed by lexing from where the step ends. */
  lemma LexAt(s: string, pos: nat)
    requires pos < |s|
    ensures pos + Consumed(LexStep(s[pos..])) <= |s|
    ensures Lex(s[pos..]) ==
      Emitted(LexStep(s[pos..])) + Lex(s[pos + Consumed(LexStep(s[pos..]))..])
  {
    var rest := s[pos..];
    LexUnfold(rest);
    assert rest[Consumed(LexStep(rest))..] == s[pos + Consumed(LexStep(rest))..];
  }

  lemma DropConcat<T>(a: seq<T>, b: seq<T>, n: nat)
    requires n <= |a|
    ensures (a + b)[n..] == a[n..] + b
  {
  }

  lemma AppendAssoc<T>(a: seq<T>, b: seq<T>, c: seq<T>)
    ensures (a + b) + c == a + (b + c)
  {
  }

  // ---------------------------------------------------------------------
  // Seams: where a string can be cut without changing its tokens
  // ---------------------------------------------------------------------

  /**
   * No token can straddle the seam between `a` and `b`: a name run that
   * ends `a` cannot continue into `b`, and no keyword alternative can begin
   * inside `a` and end inside `b`.
   */
  ghost predicate CleanSeam(a: string, b: string)
  {
    (|a| > 0 && |b| > 0 && InNameClass(a[|a| - 1]) ==> !InNameClass(b[0])) &&
    forall k, j ::
      (0 <= k < |Keywords| && 0 < j < |Keywords[k].1| && j <= |a| &&
       |b| > 0 && Keywords[k].1[j] == b[0]) ==> a[|a| - j..] != Keywords[k].1[..j]
  }

  /** `c` occurs in no keyword alternative. */
  ghost predicate OutsideKeywords(c: char)
  {
    forall k, i :: 0 <= k < |Keywords| && 0 <= i < |Keywords[k].1| ==> Keywords[k].1[i] != c
  }

  /**
   * A seam is clean when the name rule cannot run across it and the last
   * character before it occurs in no keyword alternative.
   */
  lemma SeamAfter(a: string, b: string)
    requires |a| > 0 && OutsideKeywords(a[|a| - 1])
    requires |b| > 0 && InNameClass(a[|a| - 1]) ==> !InNameClass(b[0])
    ensures CleanSeam(a, b)
  {
    forall k, j | 0 <= k < |Keywords| && 0 < j < |Keywords[k].1| && j <= |a| &&
      |b| > 0 && Keywords[k].1[j] == b[0]
      ensures a[|a| - j..] != Keywords[k].1[..j]
    {
      assert a[|a| - j..][j - 1] == a[|a| - 1];
      assert Keywords[k].1[..j][j - 1] == Keywords[k].1[j - 1];
    }
  }

  lemma SeamSuffix(a: string, b: string, n: nat)
    requires CleanSeam(a, b) && n <= |a|
    ensures CleanSeam(a[n..], b)
  {
    var a' := a[n..];
    forall k, j | 0 <= k < |Keywords| && 0 < j < |Keywords[k].1| && j <= |a'| &&
      |b| > 0 && Keywords[k].1[j] == b[0]
      ensures a'[|a'| - j..] != Keywords[k].1[..j]
    {
      assert a'[|a'| - j..] == a[|a| - j..];
    }
    if |a'| > 0 {
      assert a'[|a'| - 1] == a[|a| - 1];
    }
  }

  lemma KeywordAtSeam(a: string, b: string, k: nat)
    requires |a| > 0 && CleanSeam(a, b)
    ensures KeywordAt(a + b, k) == KeywordAt(a, k)
  {
    if k < |Keywords| {
      var w := Keywords[k].1;
      if |w| <= |a| {
        assert (a + b)[..|w|] == a[..|w|];
        assert w <= a + b <==> w == (a + b)[..|w|];
        assert w <= a <==> w == a[..|w|];
      } else {
        var j := |a|;
        assert (a + b)[..j] == a;
        if |b| > 0 && w[j] == b[0] {
          assert a[|a| - j..] == a;
          assert w[..j] != a;
        } else if |b| > 0 {
          assert (a + b)[j] == b[0];
        }
      }
    }
  }

  lemma {:induction false} FirstKeywordSeam(a: string, b: string, k: nat)
    requires |a| > 0 && CleanSeam(a, b)
    ensures FirstKeyword(a + b, k) == FirstKeyword(a, k)
    decreases |Keywords| - k
  {
    if k < |Keywords| {
      KeywordAtSeam(a, b, k);
      FirstKeywordSeam(a, b, k + 1);
    }
  }

  /** A name run continues across a seam exactly when it covers all of `a`. */
  lemma {:induction false} NameRunConcat(a: string, b: string)
    ensures NameRun(a + b) == if NameRun(a) < |a| then NameRun(a) else |a| + NameRun(b)
  {
    if |a| > 0 {
      assert (a + b)[1..] == a[1..] + b;
      NameRunConcat(a[1..], b);
    } else {
      assert a + b == b;
    }
  }

  lemma LexStepSeam(a: string, b: string)
    requires |a| > 0 && CleanSeam(a, b)
    ensures LexStep(a + b) == LexStep(a)
  {
    FirstKeywordSeam(a, b, 0);
    NameRunConcat(a, b);
    NameRunMaximal(a);
    var n := NameRun(a);
    if n == |a| {
      assert InNameClass(a[|a| - 1]);
    }
    assert (a + b)[..n] == a[..n];
  }

  /** Lexing a string cut at a clean seam is lexing the two sides apart. */
  lemma {:induction false} LexSeam(a: string, b: string)
    requires CleanSeam(a, b)
    ensures Lex(a + b) == Lex(a) + Lex(b)
    decreases |a|
  {
    if |a| == 0 {
      assert a + b == b;
    } else {
      var step := LexStep(a);
      var n := Consumed(step);
      LexUnfold(a);
      calc {
        Lex(a + b);
        == { LexUnfold(a + b); LexStepSeam(a, b); }
        Emitted(step) + Lex((a + b)[n..]);
        == { DropConcat(a, b, n); }
        Emitted(step) + Lex(a[n..] + b);
        == { SeamSuffix(a, b, n); LexSeam(a[n..], b); }
        Emitted(step) + (Lex(a[n..]) + Lex(b));
        == { AppendAssoc(Emitted(step), Lex(a[n..]), Lex(b)); }
        Lex(a) + Lex(b);
      }
    }
  }

  // ---------------------------------------------------------------------
  // Lexing a text piece by piece
  // ---------------------------------------------------------------------

  /** A FIND alternative is picked when no earlier FIND alternative starts with the same character. */
  lemma FindKeyword(rest: string, k: nat)
    requires 26 <= k < |Keywords| && KeywordAt(rest, k)
    requires forall j :: 26 <= j < k ==> Keywords[j].1[0] != rest[0]
    ensures FirstKeyword(rest, 0) == Some(k)
  {
    KeywordHeads();
    assert rest[0] == Keywords[k].1[0];
    HeadsDisjoint(rest[0]);
    FirstKeywordByHeads(rest, k);
  }

  /** Nothing in the keyword table starts with a character outside both head lists. */
  lemma NoKeyword(rest: string)
    requires |rest| > 0 && rest[0] !in OtherHeads && rest[0] !in FindHeads
    ensures FirstKeyword(rest, 0) == None
  {
    KeywordHeads();
    NoKeywordByHeads(rest);
  }

  /** A keyword alternative the master pattern picks lexes to its rule's token. */
  lemma LexWord(w: string, rest: string, k: nat)
    requires k < |Keywords| && Keywords[k].1 == w
    requires FirstKeyword(w + rest, 0) == Some(k)
    requires |w| > 0 && w[0] !in Ignored
    ensures Lex(w + rest) == [RuleAction(Keywords[k].0, w)] + Lex(rest)
  {
    LexKeyword(w + rest, k);
    assert (w + rest)[|w|..] == rest;
  }

  lemma {:induction false} NameRunAll(n: string)
    requires forall i :: 0 <= i < |n| ==> InNameClass(n[i])
    ensures NameRun(n) == |n|
  {
    if |n| > 0 {
      assert forall i :: 0 <= i < |n[1..]| ==> n[1..][i] == n[i + 1];
      NameRunAll(n[1..]);
    }
  }

  /**
   * A run of name characters at which no keyword alternative matches, and
   * that is followed by no name character, is one token.
   */
  lemma LexName(n: string, rest: string)
    requires |n| > 0 && n[0] !in Ignored && FirstKeyword(n + rest, 0).None?
    requires forall i :: 0 <= i < |n| ==> InNameClass(n[i])
    requires |rest| == 0 || !InNameClass(rest[0])
    ensures Lex(n + rest) == [Token(CHINESE_NAME, n)] + Lex(rest)
  {
    NameRunAll(n);
    NameRunConcat(n, rest);
    assert (n + rest)[0] == n[0];
    LexNameOrDrop(n + rest);
    assert (n + rest)[..|n|] == n;
    assert (n + rest)[|n|..] == rest;
  }

  /** A character at which no rule matches is skipped by one position. */
  lemma LexDrop(c: char, rest: string)
    requires c !in Ignored && !InNameClass(c) && FirstKeyword([c] + rest, 0).None?
    ensures Lex([c] + rest) == Lex(rest)
  {
    LexNameOrDrop([c] + rest);
    assert ([c] + rest)[1..] == rest;
  }

  /** `LexName` for a run whose first character begins no keyword alternative. */
  lemma LexNameUnheaded(n: string, rest: string)
    requires |n| > 0 && n[0] !in Ignored && n[0] !in OtherHeads && n[0] !in FindHeads
    requires forall i :: 0 <= i < |n| ==> InNameClass(n[i])
    requires |rest| == 0 || !InNameClass(rest[0])
    ensures Lex(n + rest) == [Token(CHINESE_NAME, n)] + Lex(rest)
  {
    assert (n + rest)[0] == n[0];
    NoKeyword(n + rest);
    LexName(n, rest);
  }

  /** `LexDrop` for a character that begins no keyword alternative. */
  lemma LexDropUnheaded(c: char, rest: string)
    requires c !in Ignored && !InNameClass(c) && c !in OtherHeads && c !in FindHeads
    ensures Lex([c] + rest) == Lex(rest)
  {
    NoKeyword([c] + rest);
    LexDrop(c, rest);
  }

  /** A filler character is skipped. */
  lemma LexIgnore(c: char, rest: string)
    requires c in Ignored
    ensures Lex([c] + rest) == Lex(rest)
  {
    LexUnfold([c] + rest);
    assert ([c] + rest)[1..] == rest;
  }

  // ---------------------------------------------------------------------
  // Filler and dynasty synonyms
  // ---------------------------------------------------------------------

  /** No filler character occurs in a keyword alternative or in the name class. */
  lemma FillerOutsideVocabulary(c: char)
    requires c in Ignored
    ensures !InNameClass(c)
    ensures forall k, j :: 0 <= k < |Keywords| && 0 <= j < |Keywords[k].1| ==> Keywords[k].1[j] != c
  {
    FillerOutsideNames(c);
    assert c == ' ' || c == '\t' || c == '\r' || c == '\n' || c == '的';
  }

  lemma FillerOutsideNames(c: char)
    requires c in Ignored
    ensures !InNameClass(c)
  {
  }

  /** No token can straddle the cut before a filler character. */
  lemma FillerSeam(a: string, c: char, b: string)
    requires c in Ignored
    ensures CleanSeam(a, [c] + b)
  {
    var r := [c] + b;
    FillerOutsideVocabulary(c);
    assert r[0] == c;
    forall k, j | 0 <= k < |Keywords| && 0 < j < |Keywords[k].1| && j <= |a| && |r| > 0
      ensures Keywords[k].1[j] != r[0]
    {
    }
  }

  /** A filler character separates: the two sides are lexed apart and it adds no token. */
  lemma FillerSeparates(a: string, c: char, b: string)
    requires c in Ignored
    ensures Lex(a + [c] + b) == Lex(a) + Lex(b)
  {
    var r := [c] + b;
    FillerSeam(a, c, b);
    calc {
      Lex(a + [c] + b);
      == { assert a + [c] + b == a + r; }
      Lex(a + r);
      == { LexSeam(a, r); }
      Lex(a) + Lex(r);
      == { LexUnfold(r); assert r[1..] == b; }
      Lex(a) + Lex(b);
    }
  }

  /**
   * Removing a filler character from between two tokens, that is, from a
   * clean seam, leaves the tokens unchanged.
   */
  lemma FillerInvariance(a: string, c: char, b: string)
    requires c in Ignored && CleanSeam(a, b)
    ensures Lex(a + [c] + b) == Lex(a + b)
  {
    FillerSeparates(a, c, b);
    LexSeam(a, b);
  }

  /** The eras that have a …代 and a …朝 form. */
  const Eras: string := "唐宋晋明清"

  /** Where an era character occurs inside a keyword after its first character. */
  lemma EraInsideKeywords(era: char)
    requires era in Eras
    ensures !InNameClass(era)
    ensures forall k, j :: 0 <= k < |Keywords| && 0 < j < |Keywords[k].1| && Keywords[k].1[j] == era ==>
      era == '晋' && Keywords[k].1 == "东晋" && j == 1
  {
    EraOutsideNames(era);
    TailsBeforeEras();
    TailsOfEras();
    TailsAfterEras();
    assert era != '代' && era != '朝';
  }

  /** No keyword before the DYNASTY rule's has an era after its first character. */
  lemma TailsBeforeEras()
    ensures forall k, j :: 0 <= k < 14 && 0 < j < |Keywords[k].1| ==> Keywords[k].1[j] !in Eras
  {
  }

  /** The era alternatives end in 代 or 朝, and 东晋 ends in 晋. */
  lemma TailsOfEras()
    ensures forall k, j :: 14 <= k < 24 && 0 < j < |Keywords[k].1| ==> j == 1 && Keywords[k].1[j] in "代朝"
    ensures Keywords[24].1 == "东晋"
  {
  }

  /** No keyword after 东晋 has an era after its first character. */
  lemma TailsAfterEras()
    ensures forall k, j :: 25 <= k < |Keywords| && 0 < j < |Keywords[k].1| ==> Keywords[k].1[j] !in Eras
  {
  }

  lemma EraOutsideNames(era: char)
    requires era in Eras
    ensures !InNameClass(era) && era !in Ignored
  {
  }

  /** The first alternative that matches is the one the lexer takes. */
  lemma FirstKeywordIs(rest: string, k: nat)
    requires FirstMatchingKeyword(rest, k)
    ensures FirstKeyword(rest, 0) == Some(k)
  {
    FirstKeywordFrom(rest, 0, k);
  }

  lemma {:induction false} FirstKeywordFrom(rest: string, i: nat, k: nat)
    requires i <= k && FirstMatchingKeyword(rest, k)
    ensures FirstKeyword(rest, i) == Some(k)
    decreases k - i
  {
    if i < k {
      assert !KeywordAt(rest, i);
      assert FirstKeyword(rest, i) == FirstKeyword(rest, i + 1);
      FirstKeywordFrom(rest, i + 1, k);
    }
  }

  /** The alternative of an era's …代 or …朝 form: one of the ten at 14 to 23. */
  lemma EraAlternative(era: char, x: char) returns (k: nat)
    requires era in Eras && x in "代朝"
    ensures 14 <= k < 24 && Keywords[k] == (DYNASTY, [era, x])
  {
    assert era == '唐' || era == '宋' || era == '晋' || era == '明' || era == '清';
    var e := if era == '唐' then 0 else if era == '宋' then 1 else if era == '晋' then 2
      else if era == '明' then 3 else 4;
    k := e + if x == '代' then 14 else 19;
  }

  /** The alternatives before the DYNASTY rule's start with none of the eras. */
  lemma EarlyHeads()
    ensures forall j :: 0 <= j < 14 ==> |Keywords[j].1| > 0 && Keywords[j].1[0] in "书作著墨代风字"
  {
  }

  /** The ten era alternatives are distinct words of two characters. */
  lemma EraWordsDistinct()
    ensures forall i :: 14 <= i < 24 ==> |Keywords[i].1| == 2 && Keywords[i].1[0] in Eras
    ensures forall i, j :: 14 <= i < j < 24 ==> Keywords[i].1 != Keywords[j].1
  {
  }

  /** An era alternative that matches is the one the master pattern picks. */
  lemma EraFirst(rest: string, k: nat)
    requires 14 <= k < 24 && KeywordAt(rest, k)
    ensures FirstKeyword(rest, 0) == Some(k)
  {
    EarlyHeads();
    EraWordsDistinct();
    var w := Keywords[k].1;
    assert rest[..2] == w;
    assert rest[0] !in "书作著墨代风字" by {
      var era := rest[0];
      assert era in Eras;
      assert era == '唐' || era == '宋' || era == '晋' || era == '明' || era == '清';
    }
    forall j | 0 <= j < k
      ensures !KeywordAt(rest, j)
    {
      if j >= 14 {
        assert Keywords[j].1 != w;
      }
    }
    FirstKeywordIs(rest, k);
  }

  /** Both forms of an era lex to one DYNASTY token carrying the …代 form. */
  lemma EraStep(era: char, x: char, b: string)
    requires era in Eras && x in "代朝"
    ensures LexStep([era, x] + b) == Emit(Token(DYNASTY, [era, '代']), 2)
  {
    var rest := [era, x] + b;
    var k := EraAlternative(era, x);
    assert rest[..2] == [era, x];
    EraFirst(rest, k);
    EraOutsideNames(era);
    EraNormal(era, x);
  }

  /** Both forms of an era normalize to the …代 form. */
  lemma EraNormal(era: char, x: char)
    requires era in Eras && x in "代朝"
    ensures NormalizeDynasty([era, x]) == [era, '代']
  {
    var r := NormalizeDynasty([era, x]);
    if x == '代' {
      assert [era, x] !in {"唐朝", "宋朝", "晋朝", "明朝", "清朝"};
    } else {
      assert [era, x] in {"唐朝", "宋朝", "晋朝", "明朝", "清朝"} by {
        assert era == '唐' || era == '宋' || era == '晋' || era == '明' || era == '清';
      }
      assert r == [r[0], r[1]];
    }
  }

  /**
   * A …朝 form and the matching …代 form give the same tokens wherever they
   * occur, except that 晋 right after 东 is read as part of 东晋.
   */
  lemma DynastySynonym(a: string, era: char, b: string)
    requires era in Eras
    requires era == '晋' ==> |a| == 0 || a[|a| - 1] != '东'
    ensures Lex(a + [era, '朝'] + b) == Lex(a) + [Token(DYNASTY, [era, '代'])] + Lex(b)
    ensures Lex(a + [era, '代'] + b) == Lex(a) + [Token(DYNASTY, [era, '代'])] + Lex(b)
  {
    EraForm(a, era, '朝', b);
    EraForm(a, era, '代', b);
  }

  lemma EraForm(a: string, era: char, x: char, b: string)
    requires era in Eras && x in "代朝"
    requires era == '晋' ==> |a| == 0 || a[|a| - 1] != '东'
    ensures Lex(a + [era, x] + b) == Lex(a) + [Token(DYNASTY, [era, '代'])] + Lex(b)
  {
    var r := [era, x] + b;
    EraInsideKeywords(era);
    forall k, j | 0 <= k < |Keywords| && 0 < j < |Keywords[k].1| && j <= |a| &&
      |r| > 0 && Keywords[k].1[j] == r[0]
      ensures a[|a| - j..] != Keywords[k].1[..j]
    {
      assert a[|a| - j..][0] == a[|a| - 1];
    }
    assert CleanSeam(a, r);
    calc {
      Lex(a + [era, x] + b);
      == { assert a + [era, x] + b == a + r; }
      Lex(a + r);
      == { LexSeam(a, r); }
      Lex(a) + Lex(r);
      == { EraStep(era, x, b); LexUnfold(r); assert r[2..] == b; }
      Lex(a) + ([Token(DYNASTY, [era, '代'])] + Lex(b));
      == { AppendAssoc(Lex(a), [Token(DYNASTY, [era, '代'])], Lex(b)); }
      Lex(a) + [Token(DYNASTY, [era, '代'])] + Lex(b);
    }
  }
}
