/**
 * `parse`: the tokenizer, the recovering parser and the actions put
 * together, with the fixed reply for input that yields no query.
 */
module Engine {
  import opened Wrappers
  import opened KnowledgeBase
  import opened Lexer
  import opened Parser
  import opened Resolver

  /** The reply when the parser produces no value. */
  const NotUnderstood: string := "无法理解您的查询，请尝试重新表述"

  /** The reply to a query text; an empty action result also falls back to the fixed reply. */
  function Respond(kb: Tables, text: string): (r: string)
  {
    match Recover(Lex(text))
    case None => NotUnderstood
    case Some(q) =>
      var result := Resolve(kb, q);
      if result != "" then result else NotUnderstood
  }

  /**
   * `parse` as the engine runs it: the lexer's scan loop, then the parser,
   * then the action, where shapes 3 and 6 run their loops.
   */
  method Parse(kb: Tables, text: string) returns (reply: string)
    ensures reply == Respond(kb, text)
  {
    var tokens := Tokenize(text);
    var parsed := Recover(tokens);
    match parsed
    case None =>
      reply := NotUnderstood;
    case Some(q) =>
      var result: string;
      match q {
        case Direct(name) =>
          result := FindDirect(kb.calligraphers, name);
        case DynastyCalligraphers(dynasty) =>
          result := DynastyRoster(kb.calligraphers, dynasty);
        case _ =>
          result := Resolve(kb, q);
      }
      assert result == Resolve(kb, q);
      reply := if result != "" then result else NotUnderstood;
  }

  /**
   * The reply is never empty, and it is the fixed "not understood" text
   * exactly when the parser yields no query.
   */
  lemma RespondNotUnderstood(kb: Tables, text: string)
    ensures |Respond(kb, text)| > 0
    ensures Respond(kb, text) == NotUnderstood <==> Recover(Lex(text)) == None
  {
    match Recover(Lex(text))
    case None =>
    case Some(q) =>
      ResolveOutcome(kb, q);
      assert Resolve(kb, q)[0] != NotUnderstood[0];
  }

  /**
   * A text whose tokens read as exactly one production gets that
   * production's reply; with an unknown operand that is the production's
   * own `❌` message, never the "not understood" text.
   */
  lemma RespondMatched(kb: Tables, text: string, q: Query)
    requires Match(Lex(text)) == Some(q)
    ensures Respond(kb, text) == Resolve(kb, q)
    ensures !Known(kb, q) ==> Respond(kb, text)[0] == '❌' && Respond(kb, text) != NotUnderstood
  {
    RecoverMatch(Lex(text));
    ResolveOutcome(kb, q);
    assert NotUnderstood[0] != '❌';
  }

  /** Writing an era with 朝 or with 代 gives the same reply. */
  lemma RespondDynastySynonym(kb: Tables, a: string, era: char, b: string)
    requires era in Eras
    requires era == '晋' ==> |a| == 0 || a[|a| - 1] != '东'
    ensures Respond(kb, a + [era, '朝'] + b) == Respond(kb, a + [era, '代'] + b)
  {
    DynastySynonym(a, era, b);
  }

  /** `查询唐朝书法家` and `查询唐代书法家` get the same reply. */
  lemma TangSynonym(kb: Tables)
    ensures Respond(kb, "查询唐朝书法家") == Respond(kb, "查询唐代书法家")
  {
    assert "查询唐朝书法家" == "查询" + ['唐', '朝'] + "书法家";
    assert "查询唐代书法家" == "查询" + ['唐', '代'] + "书法家";
    RespondDynastySynonym(kb, "查询", '唐', "书法家");
  }

  /** Dropping a filler character from a clean seam between tokens leaves the reply unchanged. */
  lemma RespondFiller(kb: Tables, a: string, c: char, b: string)
    requires c in Ignored && CleanSeam(a, b)
    ensures Respond(kb, a + [c] + b) == Respond(kb, a + b)
  {
    FillerInvariance(a, c, b);
  }

  /** `查询王羲之的作品` and `查询王羲之作品` get the same reply. */
  lemma ParticleBeforeWork(kb: Tables)
    ensures Respond(kb, "查询王羲之的作品") == Respond(kb, "查询王羲之作品")
  {
    var a, b := "查询王羲之", "作品";
    assert !InNameClass('作');
    assert OutsideKeywords('之');
    SeamAfter(a, b);
    assert "查询王羲之的作品" == a + ['的'] + b;
    assert "查询王羲之作品" == a + b;
    RespondFiller(kb, a, '的', b);
  }
}
