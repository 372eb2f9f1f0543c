# Calligraphy query engine, modelled in Dafny

This project models `CalligraphyDSL`, the query engine of a small
Chinese-language question-answering system about calligraphy. A query
such as `查询唐代书法家` ("list the calligraphers of the Tang") passes
through three stages:

1. **Knowledge base** (`KnowledgeBase`). This is two read-only
   dictionaries: calligraphers (dynasty, style, works, description) and
   styles (description, masters, features).
   - A table is a sequence of (key, record) entries with distinct keys, in
     the order the dictionary literal lists them. That order is Python's
     iteration order.
   - `Default` is the literal data. It is not referentially closed: style
     masters such as 怀素 have no calligrapher record.
2. **Tokenizer** (`Lexer`). At each token start the lexer works in this
   order:
   - it drops one character of the ignore set (blank, tab, CR, LF and the
     particle `的`);
   - otherwise it tries the keyword alternatives, in rule order and
     alternative order, and takes the first that matches;
   - otherwise it takes a greedy run of the name character class;
   - otherwise it drops one character.

   `Lex` is the token stream as a function. `Tokenize` is the scan loop
   over a position index, proved equal to `Lex`.
3. **Grammar and actions** (`Parser`, `Resolver`, `Engine`).
   - Seven productions, each a fixed sequence of token kinds, pick one of
     seven actions. Each action looks its operand up and fills in a reply
     template with the source's exact text.
   - `Engine.Respond` is `parse` as a function. `Engine.Parse` is the same
     pipeline as the program runs it, with the scan loops of shapes 3 and
     6 as `while` loops.
   - The tables are values passed in and never written. No action changes
     the knowledge base by construction, and no method carries a
     `modifies` clause.

The parser follows PLY's actual behaviour on this grammar, not a plain
whole-sequence match.
- The grammar has no `error` productions, and `p_error`'s return value is
  discarded. So a syntax error at a real token throws away the partial
  parse and that token, and parsing restarts with the next token.
- A syntax error at the end of input ends with no value, and `parse` then
  returns the fixed "not understood" reply.
- `Parser.Recover` models this behaviour, and `Parser.Match` is the
  whole-sequence reading. They agree whenever `Match` succeeds, and
  whenever FIND occurs only in first position.
- They differ otherwise. For example, FIND FIND FIND NAME is answered as
  production 3.

The name character class contains `书`, and the name rule is a plain
greedy run. So `搜索苏轼书法风格`, the example in the comment on production
5, lexes to the name `苏轼书`, a dropped `法` and STYLE `风格`. Its reply is
`❌ 未找到苏轼书的书法风格信息`. With the particle, `搜索苏轼的书法风格`
reaches 苏轼's record (`Examples`).

## Model

| member | source | states |
|---|---|---|
| KnowledgeBase.Lookup | grammar.py:149-150 | `get`/`in` on a dictionary: the result is absent exactly when the key is not among the keys, and a found value is stored under that key |
| KnowledgeBase.LookupEntry | grammar.py:13-50 | with distinct keys, looking up an entry's key returns that entry's own record |
| KnowledgeBase.DefaultMastersNotClosed | grammar.py:64-67 | the 草书 style lists 怀素 as a master, yet 怀素 has no calligrapher record |
| Text.JoinContains | grammar.py:154 | every item of a list occurs in its `、`-joined text |
| Lexer.NormalizeDynasty | grammar.py:104-106 | a dynasty value changes exactly for 唐朝, 宋朝, 晋朝, 明朝 and 清朝; each becomes the same era with 代, and every other form is kept |
| Lexer.FirstKeyword | grammar.py:89-115 | the alternative chosen matches the input and no earlier one does; with no result, no alternative matches |
| Lexer.NameRunMaximal | grammar.py:117-118 | a name run consists of name-class characters and ends only at the end of input or before a character outside the class |
| Lexer.LexStepPrecedence | grammar.py:87-130 | at a token start, filler and only filler is ignored; a character is dropped exactly when no rule matches; a name token is the maximal run and arises only where no keyword matches; a keyword token comes from the first matching alternative, with its dynasty value normalized |
| Lexer.LexValid | grammar.py:89-122 | every token produced is a nonempty run of name characters or the (normalized) value of a keyword alternative of its own kind |
| Lexer.ScanAt | grammar.py:87-130 | one turn of the scan yields the step's token, if any, and advances the position by the step's length (one for an ignored or dropped character) |
| Lexer.Tokenize | grammar.py:87-130 | the scan loop from position 0 collects exactly the token stream `Lex` of the input |
| Lexer.LexSeam | grammar.py:89-122 | a text cut where no token can straddle the cut lexes as the two pieces lexed apart |
| Lexer.LexIgnore | grammar.py:87 | an ignored character produces no token |
| Lexer.LexDrop | grammar.py:128-130 | a character that is neither ignored nor a name character, and at which no keyword alternative matches (even one whose alternatives start with it, as 代 in `代X`), is skipped by exactly one position and produces nothing |
| Lexer.LexName | grammar.py:117-122 | a maximal run of name characters at which no keyword alternative matches becomes one CHINESE_NAME token, even when it begins with a keyword's first character, as `书王` does |
| Lexer.LexWord | grammar.py:89-115 | a keyword alternative chosen at a token start becomes one token of its rule, its text passed through the rule's action |
| Lexer.FillerSeparates | grammar.py:87 | a filler character between two texts splits them: the tokens are those of the two sides |
| Lexer.FillerInvariance | grammar.py:87 | removing a filler character from between two tokens leaves the token stream unchanged |
| Lexer.DynastySynonym | grammar.py:101-107 | anywhere in a text, an era written with 朝 and the same era written with 代 give the same tokens, one DYNASTY token with the 代 form (except 晋 right after 东, read as 东晋) |
| Parser.MatchShape | grammar.py:133-143 | a token list reads as a query exactly when its kinds spell that query's production and the right token carries its operand |
| Parser.ShapesDistinct | grammar.py:133-143 | no two productions have the same right-hand side |
| Parser.AttemptAccepts | grammar.py:133-143 | one parser run accepts exactly the token lists that read as one production, with that production's query |
| Parser.AttemptEndError | grammar.py:256-260 | a run ends at the end of input exactly when the tokens are an unfinished start of some production |
| Parser.AttemptErrorAt | grammar.py:256-258 | a run fails at the first token with which the tokens so far start no production |
| Parser.RecoverMatch | grammar.py:267 | a token list that reads as one production is parsed as that production |
| Parser.RecoverNoFind | grammar.py:267 | without a FIND token the parser yields nothing |
| Parser.RecoverSingleFind | grammar.py:267 | when FIND can only come first, the parser's result is the whole-sequence reading |
| Parser.RecoverSuffix | grammar.py:256-258 | whatever the parser yields is the whole-sequence reading of a suffix of the tokens |
| Parser.RecoverAfterRepeatedFind | grammar.py:256-258 | FIND FIND FIND NAME is not one production, yet recovery yields production 3 on its last two tokens |
| Resolver.FirstOwner | grammar.py:177-185 | the index found is of a calligrapher listing the work with no earlier calligrapher listing it; with no index, nobody lists it |
| Resolver.FindDirect | grammar.py:172-197 | the flag-and-break scan gives the reply of shape 3: the first owner in table order, else the calligrapher card, else the miss message |
| Resolver.DirectOnWork | grammar.py:177-185 | shape 3 on a work names the first calligrapher, in table order, who lists it |
| Resolver.DirectOnCalligrapher | grammar.py:187-195 | shape 3 on a calligrapher's name that is nobody's work gives the same reply as shape 1 |
| Resolver.DetailInfoAgree | grammar.py:242-253 | shapes 1 and 7 give the same reply, hit or miss |
| Resolver.CardContents | grammar.py:151-155 | the calligrapher card shows the record's dynasty, style, description and every one of its works |
| Resolver.WorksTextContents | grammar.py:164-167 | the works reply shows the record's style and every one of its works |
| Resolver.StyleTextContents | grammar.py:205-208 | the style reply shows the style's description, every one of its masters and every one of its features |
| Resolver.ArtistsMember | grammar.py:229-230 | a name is on the dynasty's list exactly when some entry under that name has that dynasty |
| Resolver.ArtistsAppend | grammar.py:229-235 | the list and its lines keep table order: they distribute over a split of the table |
| Resolver.ArtistRow | grammar.py:232-235 | looking each listed name up again finds the style of the very entry that put it on the list |
| Resolver.DynastyRoster | grammar.py:226-239 | the appending loop builds the reply of shape 6: `name（style）` lines joined by `、`, or the miss message when no calligrapher belongs to the dynasty |
| Resolver.StyleDescription | grammar.py:218 | the description is the style record's when there is one, else `暂无详细描述` |
| Resolver.MannerFallback | grammar.py:213-223 | shape 5 on a known calligrapher whose style has no record still replies, with the placeholder description |
| Resolver.ResolveOutcome | grammar.py:146-253 | every action's reply is nonempty and opens with a mark, and the mark is `❌` exactly when the knowledge base knows nothing of the operand |
| Resolver.DefaultTangRoster | grammar.py:226-239 | on the default tables the 唐代 roster lists 颜真卿, 柳公权, 张旭 and 欧阳询 with their styles, in table order |
| Resolver.DefaultJinEras | grammar.py:226-239 | on the default tables 晋代 finds nobody while 东晋 finds 王羲之: the two stay distinct |
| Engine.Parse | grammar.py:262-268 | the pipeline as run (scan loop, parser, action, fallback for an empty value) replies as `Respond` |
| Engine.RespondNotUnderstood | grammar.py:262-268 | the reply is never empty, and it is the fixed "not understood" text exactly when the parser yields no query |
| Engine.RespondMatched | grammar.py:262-268 | a text that reads as one production gets that action's reply; with an unknown operand that is the production's own `❌` message, never the "not understood" text |
| Engine.RespondDynastySynonym | grammar.py:101-107 | writing an era with 朝 or with 代 gives the same reply |
| Engine.TangSynonym | grammar.py:101-107 | `查询唐朝书法家` and `查询唐代书法家` get the same reply |
| Engine.RespondFiller | grammar.py:87 | removing a filler character from between two tokens leaves the reply unchanged |
| Engine.ParticleBeforeWork | grammar.py:279-280 | `查询王羲之的作品` and `查询王羲之作品` get the same reply |
| Examples.LexDaiDropped | grammar.py:128-130 | `代X` lexes to nothing: 代 begins the alternative 代表作, yet no alternative matches there, so both characters are dropped |
| Examples.LexShuWang | grammar.py:117-118 | `书王` lexes to the one name token `书王`: 书 begins several alternatives, yet none matches there |
| Examples.LexSuShiBare | grammar.py:212 | `搜索苏轼书法风格` lexes to FIND 搜索, NAME 苏轼书, STYLE 风格 |
| Examples.LexSuShiParticle | grammar.py:284 | `搜索苏轼的书法风格` lexes to FIND 搜索, NAME 苏轼, STYLE 书法风格 |
| Examples.BareStyleQuery | grammar.py:212 | `搜索苏轼书法风格` on the default tables replies `❌ 未找到苏轼书的书法风格信息` |
| Examples.ParticleStyleQuery | grammar.py:284 | `搜索苏轼的书法风格` on the default tables replies with 苏轼's style 行书 and the 行书 description |

## Left out

- PLY's LALR table construction is not modelled. `Parser.Attempt` is the behaviour of the automaton the grammar yields, written out by hand.
- `t_newline` and the line counter (grammar.py:124-126, grammar.py:266) are left out. Newline is in the ignore set, so that rule never fires, and the counter affects no reply.
- The exception branch of `parse` (grammar.py:270) is left out. With records of fixed fields no lookup or template can raise, so no input reaches it.
- The empty-name guard of the name rule (grammar.py:120-121) is left out. A run over the class is never blank, so the guard never fires.
- `p_error`'s strings (grammar.py:258-260) are dropped, because PLY discards its return value. Only its effect on recovery remains.
- `test_calligraphy_dsl` (grammar.py:273-306) is console output. Some of its queries appear as lemmas in `Engine` and `Examples`.
- main.py, optimized_main.py, test_driver.py, test_config.py, test_grammar_stub.py and test_llm_stub.py are not part of this model. They are interactive I/O, timing, reports, language-model calls and test scaffolding.
- Lexer.DynastySynonym: excludes 晋 directly after 东, because there `东晋` is itself a keyword and the …朝/…代 forms do not arise.
