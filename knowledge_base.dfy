/**
 * The engine's knowledge base: two read-only dictionaries, one of
 * calligraphers and one of styles. A Python dict keeps its keys unique and
 * iterates in insertion order, so a table is a sequence of (key, value)
 * entries with distinct keys, kept in the order the literal lists them.
 */
module KnowledgeBase {
  import opened Wrappers

  /** A calligrapher record: era, primary style, works in display order, a blurb. */
  datatype Calligrapher = Calligrapher(
    dynasty: string,
    style: string,
    works: seq<string>,
    description: string)

  /** A style record. `masters` need not name calligraphers of the other table. */
  datatype Style = Style(
    description: string,
    masters: seq<string>,
    features: seq<string>)

  predicate DistinctKeys<V>(t: seq<(string, V)>)
  {
    forall i, j :: 0 <= i < j < |t| ==> t[i].0 != t[j].0
  }

  /** A dictionary from names to records. */
  type Table<V> = t: seq<(string, V)> | DistinctKeys(t) witness []

  /** The two tables the engine is built with. */
  datatype Tables = Tables(calligraphers: Table<Calligrapher>, styles: Table<Style>)

  /** The keys of a table, in iteration order. */
  function Keys<V>(t: seq<(string, V)>): (ks: seq<string>)
    ensures |ks| == |t|
    ensures forall i :: 0 <= i < |t| ==> ks[i] == t[i].0
  {
    if |t| == 0 then [] else [t[0].0] + Keys(t[1..])
  }

  /**
   * `t.get(key)`: the value stored under `key`, or None when `key` is not a key.
   * The value is that of the first entry with this key.
   */
  function Lookup<V>(t: seq<(string, V)>, key: string): (r: Option<V>)
    ensures r.None? <==> key !in Keys(t)
    ensures r.Some? ==> exists i :: 0 <= i < |t| && t[i].0 == key && t[i].1 == r.value
  {
    if |t| == 0 then None
    else if t[0].0 == key then Some(t[0].1)
    else
      var r := Lookup(t[1..], key);
      assert key in Keys(t) <==> key in Keys(t[1..]) by {
        assert Keys(t) == [t[0].0] + Keys(t[1..]);
      }
      r
  }

  /** In a dictionary the entry with key `t[i].0` is `t[i]` itself. */
  lemma {:induction false} LookupEntry<V>(t: seq<(string, V)>, i: nat)
    requires DistinctKeys(t)
    requires i < |t|
    ensures Lookup(t, t[i].0) == Some(t[i].1)
  {
    if i > 0 {
      assert t[0].0 != t[i].0;
      assert t[1..][i - 1] == t[i];
      LookupEntry(t[1..], i - 1);
    }
  }

  /** A key that no entry carries is not found. */
  lemma LookupAbsent<V>(t: seq<(string, V)>, key: string)
    requires forall i :: 0 <= i < |t| ==> t[i].0 != key
    ensures Lookup(t, key).None?
  {
  }

  /** The calligraphers dictionary literal, one record per entry. */
  const DefaultCalligraphers: Table<Calligrapher> := [
    ("王羲之", WangXizhi), ("颜真卿", YanZhenqing), ("苏轼", SuShi),
    ("柳公权", LiuGongquan), ("张旭", ZhangXu), ("欧阳询", OuyangXun)
  ]

  const WangXizhi := Calligrapher("东晋", "行书", ["兰亭序", "黄庭经"],
    "书圣，行书代表作《兰亭序》被誉为天下第一行书")
  const YanZhenqing := Calligrapher("唐代", "楷书", ["祭侄文稿", "多宝塔碑"],
    "楷书四大家之一，创立颜体")
  const SuShi := Calligrapher("宋代", "行书", ["黄州寒食诗帖"],
    "宋代书法四大家之一，尚意书风代表")
  const LiuGongquan := Calligrapher("唐代", "楷书", ["玄秘塔碑", "神策军碑"],
    "楷书四大家之一，创立柳体")
  const ZhangXu := Calligrapher("唐代", "草书", ["古诗四帖"],
    "草圣，狂草书法代表人物")
  const OuyangXun := Calligrapher("唐代", "楷书", ["九成宫醴泉铭"],
    "楷书四大家族之一，欧体创始人")

  /** The styles dictionary literal, one record per entry. */
  const DefaultStyles: Table<Style> := [
    ("行书", Xingshu), ("楷书", Kaishu), ("草书", Caoshu), ("隶书", Lishu)
  ]

  const Xingshu := Style("笔势流畅、动静相宜，介于楷书和草书之间",
    ["王羲之", "苏轼", "颜真卿"], ["用笔灵活", "结构自如", "书写便捷"])
  const Kaishu := Style("结构严谨、笔画端正，法度森严",
    ["颜真卿", "柳公权", "欧阳询"], ["横平竖直", "结构方正", "笔力劲健"])
  const Caoshu := Style("纵任奔逸、赴速急就，艺术性极强",
    ["张旭", "怀素", "王献之"], ["笔势连绵", "气势贯通", "变化多端"])
  const Lishu := Style("字形扁平、笔画波磔，古朴典雅",
    ["蔡邕", "钟繇", "邓石如"], ["蚕头雁尾", "一波三折", "结构严谨"])

  /** The knowledge base the engine constructs. */
  const Default: Tables := Tables(DefaultCalligraphers, DefaultStyles)

  /**
   * The literal data is not referentially closed: the 草书 style cites
   * 怀素 as a master, and 怀素 has no calligrapher record.
   */
  lemma DefaultMastersNotClosed()
    ensures Lookup(Default.styles, "草书").Some?
    ensures "怀素" in Lookup(Default.styles, "草书").value.masters
    ensures Lookup(Default.calligraphers, "怀素").None?
  {
    LookupEntry(DefaultStyles, 2);
    assert Caoshu.masters[1] == "怀素";
    forall i | 0 <= i < |DefaultCalligraphers|
      ensures DefaultCalligraphers[i].0 != "怀素"
    {
      assert DefaultCalligraphers[i].0[0] != '怀';
    }
    LookupAbsent(DefaultCalligraphers, "怀素");
  }
}
