/**
 * Queries from the engine's own examples, worked through the lexer, the
 * parser and the actions over the default knowledge base.
 */
module Examples {
  import opened Wrappers
  import opened KnowledgeBase
  import opened Lexer
  import opened Parser
  import opened Resolver
  import opened Engine

  /** `搜索` lexes to a FIND token. */
  lemma LexSearch(rest: string)
    ensures Lex("搜索" + rest) == [Token(FIND, "搜索")] + Lex(rest)
  {
    var w := "搜索";
    assert Keywords[28] == (FIND, w);
    FindKeyword(w + rest, 28);
    LexWord(w, rest, 28);
  }

  /** `风格` lexes to a STYLE token. */
  lemma LexStyleShort(rest: string)
    ensures Lex("风格" + rest) == [Token(STYLE, "风格")] + Lex(rest)
  {
    var w := "风格";
    assert Keywords[9] == (STYLE, w);
    FirstKeywordByHeads(w + rest, 9);
    LexWord(w, rest, 9);
  }

  /** `书法风格` lexes to one STYLE token, ahead of the shorter alternatives starting with `书`. */
  lemma LexStyleLong(rest: string)
    ensures Lex("书法风格" + rest) == [Token(STYLE, "书法风格")] + Lex(rest)
  {
    var w := "书法风格";
    assert Keywords[12] == (STYLE, w);
    FirstKeywordByHeads(w + rest, 12);
    LexWord(w, rest, 12);
  }

  /** `法` belongs to no rule: it is neither ignored, nor a name character, nor a keyword head. */
  lemma FaDropped()
    ensures '法' !in Ignored && !InNameClass('法') && '法' !in OtherHeads && '法' !in FindHeads
  {
  }

  /** `法风格`: the stray `法` is dropped and `风格` is the STYLE token. */
  lemma LexBareTail()
    ensures Lex("法风格") == [Token(STYLE, "风格")]
  {
    assert "法风格" == ['法'] + ("风格" + "");
    FaDropped();
    LexDropUnheaded('法', "风格" + "");
    LexStyleShort("");
  }

  /** No keyword alternative matches at `代X`. */
  lemma DaiUnmatched()
    ensures FirstKeyword("代X", 0).None?
  {
    NoKeywordByHeads("代X");
  }

  /** `X` belongs to no rule and is dropped. */
  lemma LexStray()
    ensures Lex("X") == []
  {
    assert "X" == ['X'] + "";
    LexDropUnheaded('X', "");
  }

  /** `代` begins the alternative `代表作`, yet `代X` matches no alternative and both characters are dropped. */
  lemma LexDaiDropped()
    ensures Lex("代X") == []
  {
    DaiUnmatched();
    assert "代X" == ['代'] + "X";
    LexDrop('代', "X");
    LexStray();
  }

  /** No keyword alternative matches at `书王`. */
  lemma ShuWangUnmatched()
    ensures FirstKeyword("书王", 0).None?
  {
    NoKeywordByHeads("书王");
  }

  /** `书` begins several alternatives, yet `书王` matches none of them and is one name token. */
  lemma LexShuWang()
    ensures Lex("书王") == [Token(CHINESE_NAME, "书王")]
  {
    ShuWangUnmatched();
    assert "书王" == "书王" + "";
    LexName("书王", "");
  }

  /** `苏轼书法风格`: the name rule takes `苏轼书` and stops at `法`. */
  lemma LexBareName()
    ensures Lex("苏轼书法风格") == [Token(CHINESE_NAME, "苏轼书"), Token(STYLE, "风格")]
  {
    assert "苏轼书法风格" == "苏轼书" + "法风格";
    FaDropped();
    LexNameUnheaded("苏轼书", "法风格");
    LexBareTail();
  }

  /**
   * Without the particle the name rule runs on into `书法风格`: the name
   * is `苏轼书`, `法` is dropped and `风格` is the STYLE token.
   */
  lemma LexSuShiBare()
    ensures Lex("搜索苏轼书法风格") ==
      [Token(FIND, "搜索"), Token(CHINESE_NAME, "苏轼书"), Token(STYLE, "风格")]
  {
    assert "搜索苏轼书法风格" == "搜索" + "苏轼书法风格";
    LexSearch("苏轼书法风格");
    LexBareName();
  }

  /** `苏轼的书法风格`: the name stops at `的`, which is ignored. */
  lemma LexParticleName()
    ensures Lex("苏轼的书法风格") == [Token(CHINESE_NAME, "苏轼"), Token(STYLE, "书法风格")]
  {
    assert "苏轼的书法风格" == "苏轼" + (['的'] + ("书法风格" + ""));
    assert !InNameClass('的');
    LexNameUnheaded("苏轼", ['的'] + ("书法风格" + ""));
    LexIgnore('的', "书法风格" + "");
    LexStyleLong("");
  }

  /** With the particle the name stops at `的`, which is ignored, and `书法风格` is the STYLE token. */
  lemma LexSuShiParticle()
    ensures Lex("搜索苏轼的书法风格") ==
      [Token(FIND, "搜索"), Token(CHINESE_NAME, "苏轼"), Token(STYLE, "书法风格")]
  {
    assert "搜索苏轼的书法风格" == "搜索" + "苏轼的书法风格";
    LexSearch("苏轼的书法风格");
    LexParticleName();
  }

  /** FIND, a name and STYLE read as production 5. */
  lemma StyleShape(find: string, name: string, style: string)
    ensures Match([Token(FIND, find), Token(CHINESE_NAME, name), Token(STYLE, style)]) ==
      Some(CalligrapherStyle(name))
  {
    var ts := [Token(FIND, find), Token(CHINESE_NAME, name), Token(STYLE, style)];
    assert Kinds(ts) == [FIND, CHINESE_NAME, STYLE];
    MatchShape(ts, CalligrapherStyle(name));
  }

  /** No default calligrapher is called 苏轼书. */
  lemma SuShiShuAbsent()
    ensures Lookup(DefaultCalligraphers, "苏轼书").None?
  {
    var t := DefaultCalligraphers;
    var name := "苏轼书";
    assert t[2].0 != name by {
      assert |t[2].0| == 2;
    }
    forall i | 0 <= i < |t| && i != 2
      ensures t[i].0 != name
    {
      assert t[i].0[0] != name[0];
    }
    LookupAbsent(t, name);
  }

  /** 苏轼书 has no calligrapher record. */
  lemma BareResolve()
    ensures Resolve(Default, CalligrapherStyle("苏轼书")) == "❌ 未找到苏轼书的书法风格信息"
  {
    SuShiShuAbsent();
  }

  /** 苏轼's record names 行书, whose style entry supplies the description. */
  lemma ParticleResolve()
    ensures Resolve(Default, CalligrapherStyle("苏轼")) == MannerText("苏轼", "行书", Xingshu.description)
  {
    LookupEntry(DefaultCalligraphers, 2);
    LookupEntry(DefaultStyles, 0);
  }

  /**
   * The comment on production 5 gives `搜索苏轼书法风格` as its example;
   * as the name rule is written that query asks for the style of `苏轼书`,
   * who has no record.
   */
  lemma BareStyleQuery()
    ensures Respond(Default, "搜索苏轼书法风格") == "❌ 未找到苏轼书的书法风格信息"
  {
    LexSuShiBare();
    StyleShape("搜索", "苏轼书", "风格");
    RespondMatched(Default, "搜索苏轼书法风格", CalligrapherStyle("苏轼书"));
    BareResolve();
  }

  /** With the particle the same query reaches 苏轼's record and the 行书 entry. */
  lemma ParticleStyleQuery()
    ensures Respond(Default, "搜索苏轼的书法风格") == MannerText("苏轼", "行书", Xingshu.description)
  {
    LexSuShiParticle();
    StyleShape("搜索", "苏轼", "书法风格");
    RespondMatched(Default, "搜索苏轼的书法风格", CalligrapherStyle("苏轼"));
    ParticleResolve();
  }
}
