/**
 * The actions of the seven productions: each looks its operand up in the
 * knowledge base and fills in a reply template.  The tables are only read.
 */
module Resolver {
  import opened Wrappers
  import opened Text
  import opened KnowledgeBase
  import opened Parser

  /** The separator of every list in a reply. */
  const ListSep: string := "、"

  // ---------------------------------------------------------------------
  // Templates
  // ---------------------------------------------------------------------

  /** The calligrapher card: the reply of shapes 1 and 7, and of shape 3 on a calligrapher's name. */
  function Card(name: string, info: Calligrapher): (r: string)
  {
    "📖 " + name + "书法家信息：\n"
    + "   朝代：" + info.dynasty + "\n"
    + "   擅长书体：" + info.style + "\n"
    + "   代表作品：" + Join(ListSep, info.works) + "\n"
    + "   简介：" + info.description
  }

  /** The reply of shape 2 on a known calligrapher. */
  function WorksText(name: string, info: Calligrapher): (r: string)
  {
    "🎨 " + name + "的代表作品（" + info.style + "）：\n"
    + "   " + Join(ListSep, info.works)
  }

  /** The reply of shape 3 on a work, naming its owner. */
  function OwnerText(work: string, owner: string, info: Calligrapher): (r: string)
  {
    "📜 " + work + "是" + owner + "的代表作\n"
    + "   书体：" + info.style + "\n"
    + "   朝代：" + info.dynasty + "\n"
    + "   书法家简介：" + info.description
  }

  /** The reply of shape 4 on a known style. */
  function StyleText(name: string, info: Style): (r: string)
  {
    "🖋️ " + name + "书体信息：\n"
    + "   特点：" + info.description + "\n"
    + "   代表书家：" + Join(ListSep, info.masters) + "\n"
    + "   艺术特征：" + Join(ListSep, info.features)
  }

  /** The reply of shape 5 on a known calligrapher, given the description found for the style. */
  function MannerText(name: string, style: string, description: string): (r: string)
  {
    "🎯 " + name + "的书法风格：\n"
    + "   擅长" + style + "书体\n"
    + "   风格特点：" + description
  }

  /** The reply of shape 6 when some calligrapher belongs to the dynasty. */
  function RosterText(dynasty: string, items: seq<string>): (r: string)
  {
    "🏛️ " + dynasty + "著名书法家：\n"
    + "   " + Join(ListSep, items)
  }

  /** One roster line: the name with its style in full-width brackets. */
  function RosterItem(name: string, style: string): (r: string)
  {
    name + "（" + style + "）"
  }

  /** The description shape 5 shows when the style has no record. */
  const NoDescription: string := "暂无详细描述"

  // ---------------------------------------------------------------------
  // Shape 3: works first, in table order, then calligrapher names
  // ---------------------------------------------------------------------

  /** The index of the first calligrapher, in table order, whose works list `work`. */
  function FirstOwner(t: seq<(string, Calligrapher)>, work: string): (r: Option<nat>)
    ensures r.Some? ==> r.value < |t| && work in t[r.value].1.works
    ensures r.Some? ==> forall j :: 0 <= j < r.value ==> work !in t[j].1.works
    ensures r.None? ==> forall j :: 0 <= j < |t| ==> work !in t[j].1.works
  {
    if |t| == 0 then None
    else if work in t[0].1.works then Some(0)
    else match FirstOwner(t[1..], work)
      case None => None
      case Some(i) => Some(i + 1)
  }

  /** The reply of shape 3. */
  function ResolveDirect(t: seq<(string, Calligrapher)>, name: string): (r: string)
  {
    match FirstOwner(t, name)
    case Some(i) => OwnerText(name, t[i].0, t[i].1)
    case None =>
      match Lookup(t, name)
      case Some(info) => Card(name, info)
      case None => "❌ 未找到'" + name + "'的相关信息"
  }

  /**
   * Shape 3 as the action runs it: scan the calligraphers in order with a
   * `found` flag, stop at the first whose works contain the name, and only
   * then fall back to the calligrapher table.
   */
  method FindDirect(t: Table<Calligrapher>, name: string) returns (r: string)
    ensures r == ResolveDirect(t, name)
  {
    var found := false;
    var i := 0;
    r := "";
    while i < |t|
      invariant 0 <= i <= |t|
      invariant !found
      invariant forall j :: 0 <= j < i ==> name !in t[j].1.works
    {
      if name in t[i].1.works {
        r := OwnerText(name, t[i].0, t[i].1);
        found := true;
        break;
      }
      i := i + 1;
    }
    if found {
      FirstOwnerAt(t, name, i);
    } else {
      match Lookup(t, name)
      case Some(info) =>
        r := Card(name, info);
      case None =>
        r := "❌ 未找到'" + name + "'的相关信息";
    }
  }

  /** The first owner is the one no earlier calligrapher shares the work with. */
  lemma FirstOwnerAt(t: seq<(string, Calligrapher)>, work: string, i: nat)
    requires i < |t| && work in t[i].1.works
    requires forall j :: 0 <= j < i ==> work !in t[j].1.works
    ensures FirstOwner(t, work) == Some(i)
  {
  }

  // ---------------------------------------------------------------------
  // Shape 6: the dynasty roster
  // ---------------------------------------------------------------------

  /** The names of the calligraphers whose stored dynasty is `dynasty`, in table order. */
  function Artists(t: seq<(string, Calligrapher)>, dynasty: string): (r: seq<string>)
  {
    if |t| == 0 then []
    else (if t[0].1.dynasty == dynasty then [t[0].0] else []) + Artists(t[1..], dynasty)
  }

  /** The roster lines of those calligraphers, each with its own record's style. */
  function RosterItems(t: seq<(string, Calligrapher)>, dynasty: string): (r: seq<string>)
  {
    if |t| == 0 then []
    else
      (if t[0].1.dynasty == dynasty then [RosterItem(t[0].0, t[0].1.style)] else [])
      + RosterItems(t[1..], dynasty)
  }

  /** The reply of shape 6. */
  function ResolveDynasty(t: seq<(string, Calligrapher)>, dynasty: string): (r: string)
  {
    var items := RosterItems(t, dynasty);
    if |items| > 0 then RosterText(dynasty, items)
    else "❌ 未找到" + dynasty + "的书法家记录"
  }

  /** A name is in the roster exactly when some entry under it has that dynasty. */
  lemma {:induction false} ArtistsMember(t: seq<(string, Calligrapher)>, dynasty: string, name: string)
    ensures name in Artists(t, dynasty) <==>
      exists i :: 0 <= i < |t| && t[i].0 == name && t[i].1.dynasty == dynasty
  {
    if |t| > 0 {
      ArtistsMember(t[1..], dynasty, name);
      if exists i :: 0 <= i < |t[1..]| && t[1..][i].0 == name && t[1..][i].1.dynasty == dynasty {
        var i :| 0 <= i < |t[1..]| && t[1..][i].0 == name && t[1..][i].1.dynasty == dynasty;
        assert t[i + 1] == t[1..][i];
      }
      if exists i :: 0 <= i < |t| && t[i].0 == name && t[i].1.dynasty == dynasty {
        var i :| 0 <= i < |t| && t[i].0 == name && t[i].1.dynasty == dynasty;
        if i > 0 {
          assert t[1..][i - 1] == t[i];
        }
      }
    }
  }

  /** The roster keeps table order: it distributes over a split of the table. */
  lemma {:induction false} ArtistsAppend(t: seq<(string, Calligrapher)>, u: seq<(string, Calligrapher)>, dynasty: string)
    ensures Artists(t + u, dynasty) == Artists(t, dynasty) + Artists(u, dynasty)
    ensures RosterItems(t + u, dynasty) == RosterItems(t, dynasty) + RosterItems(u, dynasty)
  {
    if |t| > 0 {
      assert (t + u)[1..] == t[1..] + u;
      ArtistsAppend(t[1..], u, dynasty);
    } else {
      assert t + u == u;
    }
  }

  /** Each roster line comes from the entry that put its name on the list. */
  lemma {:induction false} ArtistSource(t: seq<(string, Calligrapher)>, dynasty: string, k: nat)
      returns (i: nat)
    requires k < |Artists(t, dynasty)|
    ensures |RosterItems(t, dynasty)| == |Artists(t, dynasty)|
    ensures i < |t| && t[i].0 == Artists(t, dynasty)[k]
    ensures RosterItems(t, dynasty)[k] == RosterItem(t[i].0, t[i].1.style)
  {
    RosterLength(t, dynasty);
    var u := t[1..];
    RosterLength(u, dynasty);
    if t[0].1.dynasty == dynasty && k == 0 {
      i := 0;
    } else {
      var k' := if t[0].1.dynasty == dynasty then k - 1 else k;
      var i' := ArtistSource(u, dynasty, k');
      i := i' + 1;
    }
  }

  /**
   * In a dictionary, looking each listed artist up again gives the style
   * of the very entry that put it on the list.
   */
  lemma ArtistRow(t: seq<(string, Calligrapher)>, dynasty: string, k: nat)
    requires DistinctKeys(t)
    requires k < |Artists(t, dynasty)|
    ensures |RosterItems(t, dynasty)| == |Artists(t, dynasty)|
    ensures Lookup(t, Artists(t, dynasty)[k]).Some?
    ensures RosterItems(t, dynasty)[k] ==
      RosterItem(Artists(t, dynasty)[k], Lookup(t, Artists(t, dynasty)[k]).value.style)
  {
    var i := ArtistSource(t, dynasty, k);
    LookupEntry(t, i);
  }

  lemma {:induction false} RosterLength(t: seq<(string, Calligrapher)>, dynasty: string)
    ensures |RosterItems(t, dynasty)| == |Artists(t, dynasty)|
  {
    if |t| > 0 {
      RosterLength(t[1..], dynasty);
    }
  }

  /**
   * Shape 6 as the action runs it: collect the names of the dynasty, then
   * for each look its record up again and append `name（style）`.
   */
  method DynastyRoster(t: Table<Calligrapher>, dynasty: string) returns (r: string)
    ensures r == ResolveDynasty(t, dynasty)
  {
    var artists := Artists(t, dynasty);
    ghost var items := RosterItems(t, dynasty);
    RosterLength(t, dynasty);
    if |artists| > 0 {
      var lines: seq<string> := [];
      var k := 0;
      while k < |artists|
        invariant 0 <= k <= |artists| == |items|
        invariant lines == items[..k]
      {
        ArtistRow(t, dynasty, k);
        var style := Lookup(t, artists[k]).value.style;
        assert items[..k + 1] == items[..k] + [items[k]];
        lines := lines + [RosterItem(artists[k], style)];
        k := k + 1;
      }
      assert lines == items;
      r := RosterText(dynasty, lines);
    } else {
      r := "❌ 未找到" + dynasty + "的书法家记录";
    }
  }

  // ---------------------------------------------------------------------
  // The dispatch
  // ---------------------------------------------------------------------

  /** Shape 5's style description: the style's record if there is one, else the placeholder. */
  function StyleDescription(styles: seq<(string, Style)>, style: string): (d: string)
    ensures style !in Keys(styles) ==> d == NoDescription
    ensures style in Keys(styles) ==>
      exists i :: 0 <= i < |styles| && styles[i].0 == style && styles[i].1.description == d
  {
    match Lookup(styles, style)
    case Some(info) => info.description
    case None => NoDescription
  }

  /** The reply of the action of the production a query comes from. */
  function Resolve(kb: Tables, q: Query): (r: string)
  {
    var t := kb.calligraphers;
    match q
    case CalligrapherDetail(name) =>
      (match Lookup(t, name)
       case Some(info) => Card(name, info)
       case None => "❌ 未找到书法家'" + name + "'的信息")
    case WorkRepresentative(name) =>
      (match Lookup(t, name)
       case Some(info) => WorksText(name, info)
       case None => "❌ 未找到" + name + "的作品记录")
    case Direct(name) => ResolveDirect(t, name)
    case StyleDetail(name) =>
      (match Lookup(kb.styles, name)
       case Some(info) => StyleText(name, info)
       case None => "❌ 未找到" + name + "书体的详细说明")
    case CalligrapherStyle(name) =>
      (match Lookup(t, name)
       case Some(info) => MannerText(name, info.style, StyleDescription(kb.styles, info.style))
       case None => "❌ 未找到" + name + "的书法风格信息")
    case DynastyCalligraphers(dynasty) => ResolveDynasty(t, dynasty)
    case CalligrapherInfo(name) =>
      (match Lookup(t, name)
       case Some(info) => Card(name, info)
       case None => "❌ 未找到书法家'" + name + "'的信息")
  }

  /** When the knowledge base has something for a query's operand. */
  ghost predicate Known(kb: Tables, q: Query)
  {
    match q
    case CalligrapherDetail(name) => name in Keys(kb.calligraphers)
    case WorkRepresentative(name) => name in Keys(kb.calligraphers)
    case Direct(name) =>
      name in Keys(kb.calligraphers) ||
      exists i :: 0 <= i < |kb.calligraphers| && name in kb.calligraphers[i].1.works
    case StyleDetail(name) => name in Keys(kb.styles)
    case CalligrapherStyle(name) => name in Keys(kb.calligraphers)
    case DynastyCalligraphers(dynasty) =>
      exists i :: 0 <= i < |kb.calligraphers| && kb.calligraphers[i].1.dynasty == dynasty
    case CalligrapherInfo(name) => name in Keys(kb.calligraphers)
  }

  /** The marks replies open with: one per kind of hit, and `❌` for a miss. */
  const Marks: string := "📖🎨📜🖋🎯🏛❌"

  /**
   * Every action replies with a nonempty text that opens with a mark, and
   * the mark is `❌` exactly when the knowledge base knows nothing of the
   * operand.
   */
  lemma ResolveOutcome(kb: Tables, q: Query)
    ensures |Resolve(kb, q)| > 0 && Resolve(kb, q)[0] in Marks
    ensures Resolve(kb, q)[0] == '❌' <==> !Known(kb, q)
  {
    var t := kb.calligraphers;
    match q
    case Direct(name) =>
      if FirstOwner(t, name).None? && name !in Keys(t) {
        assert !Known(kb, q);
      }
    case DynastyCalligraphers(dynasty) =>
      RosterLength(t, dynasty);
      var names := Artists(t, dynasty);
      if |names| > 0 {
        ArtistsMember(t, dynasty, names[0]);
      } else if Known(kb, q) {
        var i :| 0 <= i < |t| && t[i].1.dynasty == dynasty;
        ArtistsMember(t, dynasty, t[i].0);
      }
    case _ =>
  }

  // ---------------------------------------------------------------------
  // Properties of the templates
  // ---------------------------------------------------------------------

  /** Shapes 1 and 7 give the same reply, hit or miss. */
  lemma DetailInfoAgree(kb: Tables, name: string)
    ensures Resolve(kb, CalligrapherDetail(name)) == Resolve(kb, CalligrapherInfo(name))
  {
  }

  /** Shape 3 on a calligrapher's name that is nobody's work gives the card of shape 1. */
  lemma DirectOnCalligrapher(kb: Tables, name: string)
    requires name in Keys(kb.calligraphers)
    requires forall i :: 0 <= i < |kb.calligraphers| ==> name !in kb.calligraphers[i].1.works
    ensures Resolve(kb, Direct(name)) == Resolve(kb, CalligrapherDetail(name))
  {
  }

  /** Shape 3 on a work names the first calligrapher, in table order, who lists it. */
  lemma DirectOnWork(kb: Tables, work: string, i: nat)
    requires i < |kb.calligraphers| && work in kb.calligraphers[i].1.works
    requires forall j :: 0 <= j < i ==> work !in kb.calligraphers[j].1.works
    ensures Resolve(kb, Direct(work)) ==
      OwnerText(work, kb.calligraphers[i].0, kb.calligraphers[i].1)
  {
    FirstOwnerAt(kb.calligraphers, work, i);
  }

  /** The card shows the dynasty, the style, every work and the description of the record. */
  lemma CardContents(name: string, info: Calligrapher)
    ensures Contains(Card(name, info), info.dynasty)
    ensures Contains(Card(name, info), info.style)
    ensures Contains(Card(name, info), info.description)
    ensures forall i :: 0 <= i < |info.works| ==> Contains(Card(name, info), info.works[i])
  {
    var s0 := "📖 " + name + "书法家信息：\n" + "   朝代：";
    var s1 := s0 + info.dynasty;
    var s2 := s1 + "\n" + "   擅长书体：";
    var s3 := s2 + info.style;
    var s4 := s3 + "\n" + "   代表作品：";
    var s5 := s4 + Join(ListSep, info.works);
    var s6 := s5 + "\n" + "   简介：";
    var card := s6 + info.description;
    assert card == Card(name, info);
    ContainsSuffix(s0, info.dynasty);
    ContainsSuffix(s2, info.style);
    ContainsSuffix(s6, info.description);
    PrefixContains(s1, card, info.dynasty);
    PrefixContains(s3, card, info.style);
    forall i | 0 <= i < |info.works|
      ensures Contains(card, info.works[i])
    {
      JoinContains(ListSep, info.works, i);
      ContainsPrepend(s4, Join(ListSep, info.works), info.works[i]);
      PrefixContains(s5, card, info.works[i]);
    }
  }

  /** The works reply shows the record's style and every one of its works. */
  lemma WorksTextContents(name: string, info: Calligrapher)
    ensures Contains(WorksText(name, info), info.style)
    ensures forall i :: 0 <= i < |info.works| ==> Contains(WorksText(name, info), info.works[i])
  {
    var s0 := "🎨 " + name + "的代表作品（";
    var s1 := s0 + info.style;
    var s2 := s1 + "）：\n" + "   ";
    var reply := s2 + Join(ListSep, info.works);
    assert reply == WorksText(name, info);
    ContainsSuffix(s0, info.style);
    PrefixContains(s1, reply, info.style);
    forall i | 0 <= i < |info.works|
      ensures Contains(reply, info.works[i])
    {
      JoinContains(ListSep, info.works, i);
      ContainsPrepend(s2, Join(ListSep, info.works), info.works[i]);
    }
  }

  /** The style reply shows the record's description, every master and every feature. */
  lemma StyleTextContents(name: string, info: Style)
    ensures Contains(StyleText(name, info), info.description)
    ensures forall i :: 0 <= i < |info.masters| ==> Contains(StyleText(name, info), info.masters[i])
    ensures forall i :: 0 <= i < |info.features| ==> Contains(StyleText(name, info), info.features[i])
  {
    var s0 := "🖋️ " + name + "书体信息：\n" + "   特点：";
    var s1 := s0 + info.description;
    var s2 := s1 + "\n" + "   代表书家：";
    var s3 := s2 + Join(ListSep, info.masters);
    var s4 := s3 + "\n" + "   艺术特征：";
    var reply := s4 + Join(ListSep, info.features);
    assert reply == StyleText(name, info);
    ContainsSuffix(s0, info.description);
    PrefixContains(s1, reply, info.description);
    forall i | 0 <= i < |info.masters|
      ensures Contains(reply, info.masters[i])
    {
      JoinContains(ListSep, info.masters, i);
      ContainsPrepend(s2, Join(ListSep, info.masters), info.masters[i]);
      PrefixContains(s3, reply, info.masters[i]);
    }
    forall i | 0 <= i < |info.features|
      ensures Contains(reply, info.features[i])
    {
      JoinContains(ListSep, info.features, i);
      ContainsPrepend(s4, Join(ListSep, info.features), info.features[i]);
    }
  }

  /** Shape 5 on a calligrapher whose style has no record still replies, with the placeholder. */
  lemma MannerFallback(kb: Tables, name: string, info: Calligrapher)
    requires Lookup(kb.calligraphers, name) == Some(info)
    requires info.style !in Keys(kb.styles)
    ensures Resolve(kb, CalligrapherStyle(name)) == MannerText(name, info.style, NoDescription)
  {
  }

  /** One entry in front of a table adds at most its own line in front of the roster. */
  lemma RosterCons(e: (string, Calligrapher), u: seq<(string, Calligrapher)>, dynasty: string)
    ensures RosterItems([e] + u, dynasty) ==
      (if e.1.dynasty == dynasty then [RosterItem(e.0, e.1.style)] else []) + RosterItems(u, dynasty)
  {
    assert ([e] + u)[1..] == u;
  }

  /** The era and the roster line of each default record. */
  lemma DefaultRows()
    ensures var t := DefaultCalligraphers;
      && t[0].1.dynasty == "东晋" && RosterItem(t[0].0, t[0].1.style) == "王羲之（行书）"
      && t[1].1.dynasty == "唐代" && RosterItem(t[1].0, t[1].1.style) == "颜真卿（楷书）"
      && t[2].1.dynasty == "宋代" && RosterItem(t[2].0, t[2].1.style) == "苏轼（行书）"
      && t[3].1.dynasty == "唐代" && RosterItem(t[3].0, t[3].1.style) == "柳公权（楷书）"
      && t[4].1.dynasty == "唐代" && RosterItem(t[4].0, t[4].1.style) == "张旭（草书）"
      && t[5].1.dynasty == "唐代" && RosterItem(t[5].0, t[5].1.style) == "欧阳询（楷书）"
  {
  }

  /** The roster lines of the default tables for one dynasty, entry by entry. */
  lemma DefaultRosterItems(dynasty: string) returns (items: seq<string>)
    ensures items == RosterItems(DefaultCalligraphers, dynasty)
    ensures items ==
      (if dynasty == "东晋" then ["王羲之（行书）"] else [])
      + (if dynasty == "唐代" then ["颜真卿（楷书）"] else [])
      + (if dynasty == "宋代" then ["苏轼（行书）"] else [])
      + (if dynasty == "唐代" then ["柳公权（楷书）", "张旭（草书）", "欧阳询（楷书）"] else [])
  {
    var t := DefaultCalligraphers;
    var u5 := [t[5]];
    var u4 := [t[4]] + u5;
    var u3 := [t[3]] + u4;
    var u2 := [t[2]] + u3;
    var u1 := [t[1]] + u2;
    assert t == [t[0]] + u1;
    DefaultRows();
    RosterCons(t[5], [], dynasty);
    assert [t[5]] + [] == u5;
    RosterCons(t[4], u5, dynasty);
    RosterCons(t[3], u4, dynasty);
    RosterCons(t[2], u3, dynasty);
    RosterCons(t[1], u2, dynasty);
    RosterCons(t[0], u1, dynasty);
    items := RosterItems(t, dynasty);
  }

  /** The roster of the default tables for 唐代: four lines, in table order. */
  lemma DefaultTangRoster()
    ensures Resolve(Default, DynastyCalligraphers("唐代")) ==
      RosterText("唐代", ["颜真卿（楷书）", "柳公权（楷书）", "张旭（草书）", "欧阳询（楷书）"])
  {
    var items := DefaultRosterItems("唐代");
  }

  /** 晋代 and 东晋 are different values: the default tables know only 东晋. */
  lemma DefaultJinEras()
    ensures Resolve(Default, DynastyCalligraphers("晋代")) == "❌ 未找到晋代的书法家记录"
    ensures Resolve(Default, DynastyCalligraphers("东晋")) == RosterText("东晋", ["王羲之（行书）"])
  {
    var jin := DefaultRosterItems("晋代");
    var east := DefaultRosterItems("东晋");
    assert jin == [];
    assert east == ["王羲之（行书）"];
  }
}
