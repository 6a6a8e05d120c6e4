/** The information space: a table of dimensions keyed by id, each holding a list of vectors
    (words or phrases), with lookups, a random pick and summary statistics. */
module InfoSpace {
  import opened Wrappers
  import opened Assoc

  /** A vector of a dimension. An absent `description` is `""` and absent `tags` are `[]`: every
      use in the application only tests them for truthiness or iterates them. */
  datatype Vector = Vector(id: string, name: string, description: string, tags: seq<string>)

  datatype Dimension = Dimension(id: string, name: string, description: string, vectors: seq<Vector>)

  /** `InfoSpace.dimensions`, in key insertion order. */
  type Table = Assoc<Dimension>

  /** A value of `Math.random()`. */
  type Unit = r: real | 0.0 <= r < 1.0

  /** A vector of the built-in table, which has no tags. */
  function V(id: string, name: string, description: string): Vector {
    Vector(id, name, description, [])
  }

  /** The dimensions `loadDimensionData` installs, in order: the six dimensions with their names
      and descriptions, every emotion vector and the first three vectors of each other
      dimension. */
  function SampleDimensions(): seq<Dimension> {
    [
      Dimension("emotion", "情感体验", "游戏希望带给玩家的主要情感", [
        V("e1", "刺激紧张", "肾上腺素飙升、快节奏、高强度"),
        V("e2", "轻松欢乐", "幽默元素、积极氛围、减压体验"),
        V("e3", "恐惧紧张", "恐怖元素、心理压力、生存恐惧"),
        V("e4", "思考挑战", "智力挑战、解谜满足感、策略思考"),
        V("e5", "探索好奇", "发现新事物、解开谜题、开放世界"),
        V("e6", "成长成就", "角色进步、技能提升、目标达成"),
        V("e7", "沉浸代入", "身临其境、角色认同、情感投入"),
        V("e8", "社交连接", "团队合作、友谊建立、社区归属"),
        V("e9", "叙事感动", "情感故事、角色羁绊、道德选择"),
        V("e10", "创造自由", "表达创意、建造世界、个性化体验")
      ]),
      Dimension("verb", "动词", "描述动作、行为、状态变化的词汇", [
        V("v1", "跑", ""),
        V("v2", "走", ""),
        V("v3", "飞", "")
      ]),
      Dimension("noun", "名词", "描述事物、人物、概念的词汇", [
        V("n1", "人", ""),
        V("n2", "孩子", ""),
        V("n3", "大人", "")
      ]),
      Dimension("adjective", "形容词", "描述性质、状态、特征的词汇", [
        V("a1", "大", ""),
        V("a2", "小", ""),
        V("a3", "高", "")
      ]),
      Dimension("adverb", "副词", "修饰动词、形容词的词汇", [
        V("ad1", "突然", ""),
        V("ad2", "缓慢", ""),
        V("ad3", "快速", "")
      ]),
      Dimension("time", "时间", "时间、节奏、时机的概念", [
        V("t1", "瞬间", ""),
        V("t2", "永恒", ""),
        V("t3", "黎明", "")
      ])
    ]
  }

  /** An object literal whose entries are stored under their own `id`. */
  function Keyed(ds: seq<Dimension>): (t: Table)
    ensures |t| == |ds| && forall i :: 0 <= i < |ds| ==> t[i] == (ds[i].id, ds[i])
  {
    seq(|ds|, i requires 0 <= i < |ds| => (ds[i].id, ds[i]))
  }

  function SampleTable(): Table {
    Keyed(SampleDimensions())
  }

  /** Every dimension's `id` equals the key it is stored under. */
  predicate IdsMatchKeys(t: Table) {
    forall i :: 0 <= i < |t| ==> t[i].1.id == t[i].0
  }

  const SampleKeys := ["emotion", "verb", "noun", "adjective", "adverb", "time"]

  /** The built-in table holds the six dimensions in this order, each under its own id. */
  lemma {:induction false} SampleTableShape()
    ensures Keys(SampleTable()) == SampleKeys
    ensures UniqueKeys(SampleTable()) && IdsMatchKeys(SampleTable())
  {
    var ds := SampleDimensions();
    assert |ds| == 6;
    assert ds[0].id == SampleKeys[0] && ds[1].id == SampleKeys[1] && ds[2].id == SampleKeys[2];
    assert ds[3].id == SampleKeys[3] && ds[4].id == SampleKeys[4] && ds[5].id == SampleKeys[5];
    SampleKeysUnique();
  }

  lemma {:induction false} SampleKeysUnique()
    ensures forall i, j :: 0 <= i < j < |SampleKeys| ==> SampleKeys[i] != SampleKeys[j]
  {
    var ks := SampleKeys;
    assert |ks[0]| == 7 && |ks[1]| == 4 && |ks[2]| == 4 && |ks[3]| == 9 && |ks[4]| == 6 && |ks[5]| == 4;
    assert ks[1][0] == 'v' && ks[2][0] == 'n' && ks[5][0] == 't';
  }

  /** The `InfoSpace` object, whose `dimensions` field is filled by `init`. */
  class Space {
    var dimensions: Table

    constructor()
      ensures dimensions == []
    {
      dimensions := [];
    }

    /** `loadDimensionData`: replaces the table by the built-in one. */
    method LoadDimensionData()
      modifies this
      ensures dimensions == SampleTable()
    {
      dimensions := SampleTable();
    }

    /** `init`. */
    method Init()
      modifies this
      ensures dimensions == SampleTable()
    {
      LoadDimensionData();
    }
  }

  /** `getAllDimensions`: `Object.values`, in key order. */
  function AllDimensions(t: Table): (ds: seq<Dimension>)
    ensures |ds| == |t| && forall i :: 0 <= i < |t| ==> ds[i] == t[i].1
    decreases |t|
  {
    if |t| == 0 then [] else [t[0].1] + AllDimensions(t[1..])
  }

  /** `getDimension`: the dimension stored under `id`, `None` for `null`. */
  function GetDimension(t: Table, id: string): (r: Option<Dimension>)
    ensures r.Some? <==> id in Keys(t)
    ensures r.Some? ==> (id, r.value) in t
  {
    GetMember(t, id);
    Get(t, id)
  }

  /** `getVectorsFromDimension`: the vectors of a known dimension, `[]` for an unknown id. */
  function VectorsFromDimension(t: Table, id: string): (vs: seq<Vector>)
    ensures id !in Keys(t) ==> vs == []
    ensures id in Keys(t) ==> exists d :: (id, d) in t && d.vectors == vs
  {
    match GetDimension(t, id)
    case Some(d) => d.vectors
    case None => []
  }

  /** `Math.floor(r * n)`: an index into a list of `n > 0` elements. */
  function RandomIndex(r: Unit, n: nat): (i: nat)
    requires n > 0
    ensures i < n
  {
    var x := r * (n as real);
    assert x < n as real by {
      assert (1.0 - r) * (n as real) > 0.0;
    }
    x.Floor
  }

  /** Every index can be drawn: `r = j / n` picks index `j`. */
  lemma {:induction false} RandomIndexReaches(n: nat, j: nat)
    requires j < n
    ensures 0.0 <= (j as real) / (n as real) < 1.0
    ensures RandomIndex((j as real) / (n as real), n) == j
  {
    var r: Unit := (j as real) / (n as real);
    assert r * (n as real) == j as real;
  }

  /** `getRandomVector(id)` with the value of `Math.random()` passed in as `r`: `None` for an
      unknown or empty dimension, otherwise the vector at index `floor(r * length)`. */
  function RandomVector(t: Table, id: string, r: Unit): (v: Option<Vector>)
    ensures v.None? <==> VectorsFromDimension(t, id) == []
    ensures v.Some? ==> v.value in VectorsFromDimension(t, id)
    ensures v.Some? ==>
      v.value == VectorsFromDimension(t, id)[RandomIndex(r, |VectorsFromDimension(t, id)|)]
  {
    match GetDimension(t, id)
    case None => None
    case Some(d) =>
      if |d.vectors| == 0 then None
      else Some(d.vectors[RandomIndex(r, |d.vectors|)])
  }

  /** Every vector of a dimension can be drawn: `r = j / n` draws the vector at index `j`. */
  lemma {:induction false} RandomVectorReaches(t: Table, id: string, j: nat)
    requires j < |VectorsFromDimension(t, id)|
    ensures var n := |VectorsFromDimension(t, id)|;
      0.0 <= (j as real) / (n as real) < 1.0
      && RandomVector(t, id, (j as real) / (n as real)) == Some(VectorsFromDimension(t, id)[j])
  {
    RandomIndexReaches(|VectorsFromDimension(t, id)|, j);
  }

  /** The vectors chosen for a list of dimension ids, keyed by id in first-insertion order. */
  type Selection = Assoc<Vector>

  /** What the selection loop has built after the ids `ids`: each id with a vector is written
      into the result object, a later pick for the same id overwriting the earlier one;
      `rand(i)` is the value of `Math.random()` drawn for the `i`-th id. */
  function Selected(t: Table, ids: seq<string>, rand: nat -> Unit): Selection
    decreases |ids|
  {
    if |ids| == 0 then []
    else
      var before := Selected(t, ids[..|ids| - 1], rand);
      var id := ids[|ids| - 1];
      match RandomVector(t, id, rand(|ids| - 1))
      case Some(v) => Put(before, id, v)
      case None => before
  }

  /** `selectFromDimensions(ids)`. */
  method SelectFromDimensions(t: Table, ids: seq<string>, rand: nat -> Unit) returns (result: Selection)
    ensures result == Selected(t, ids, rand)
  {
    result := [];
    var i := 0;
    while i < |ids|
      invariant 0 <= i <= |ids|
      invariant result == Selected(t, ids[..i], rand)
    {
      assert ids[..i + 1][..i] == ids[..i];
      var vector := RandomVector(t, ids[i], rand(i));
      if vector.Some? {
        result := Put(result, ids[i], vector.value);
      }
      i := i + 1;
    }
    assert ids[..|ids|] == ids;
  }

  /** The selection's keys are exactly the requested ids whose dimension has vectors, each once. */
  lemma {:induction false} SelectedKeys(t: Table, ids: seq<string>, rand: nat -> Unit, k: string)
    ensures k in Keys(Selected(t, ids, rand)) <==> k in ids && VectorsFromDimension(t, k) != []
    ensures UniqueKeys(Selected(t, ids, rand))
    decreases |ids|
  {
    if |ids| > 0 {
      var init := ids[..|ids| - 1];
      var id := ids[|ids| - 1];
      assert ids == init + [id];
      SelectedKeys(t, init, rand, k);
      var before := Selected(t, init, rand);
      var v := RandomVector(t, id, rand(|ids| - 1));
      if v.Some? {
        PutKeys(before, id, v.value);
        PutUnique(before, id, v.value);
      }
    }
  }

  /** Each chosen vector belongs to the dimension it is keyed by. */
  lemma {:induction false} SelectedValues(t: Table, ids: seq<string>, rand: nat -> Unit, k: string)
    ensures Get(Selected(t, ids, rand), k).Some? ==>
      Get(Selected(t, ids, rand), k).value in VectorsFromDimension(t, k)
    decreases |ids|
  {
    if |ids| > 0 {
      var init := ids[..|ids| - 1];
      var id := ids[|ids| - 1];
      SelectedValues(t, init, rand, k);
      var v := RandomVector(t, id, rand(|ids| - 1));
      if v.Some? {
        PutGet(Selected(t, init, rand), id, v.value, k);
      }
    }
  }

  /** For an id that occurs last at position `j`, the selection holds the pick made there. */
  lemma {:induction false} SelectedLastWins(t: Table, ids: seq<string>, rand: nat -> Unit, j: nat)
    requires j < |ids|
    requires forall k :: j < k < |ids| ==> ids[k] != ids[j]
    ensures Get(Selected(t, ids, rand), ids[j]) == RandomVector(t, ids[j], rand(j))
    decreases |ids|
  {
    var init := ids[..|ids| - 1];
    var id := ids[|ids| - 1];
    var before := Selected(t, init, rand);
    var v := RandomVector(t, id, rand(|ids| - 1));
    if v.Some? {
      PutGet(before, id, v.value, ids[j]);
    }
    if j < |ids| - 1 {
      SelectedLastWins(t, init, rand, j);
    } else if v.None? {
      assert VectorsFromDimension(t, id) == [];
      SelectedKeys(t, init, rand, id);
    }
  }

  datatype Stats = Stats(dimensionCount: nat, totalVectors: nat, averageVectors: Option<nat>)

  /** The `reduce` summing the vector counts. */
  function TotalVectors(ds: seq<Dimension>): (n: nat)
    decreases |ds|
  {
    if |ds| == 0 then 0 else TotalVectors(ds[..|ds| - 1]) + |ds[|ds| - 1].vectors|
  }

  /** `Math.round(x)` for `x = n / d >= 0`: `floor(n / d + 1/2)`. */
  function RoundDiv(n: nat, d: nat): (a: nat)
    requires d > 0
    ensures 2 * a * d <= 2 * n + d < 2 * (a + 1) * d
  {
    (2 * n + d) / (2 * d)
  }

  /** `getDimensionStats`; `averageVectors` is `None` for the `NaN` of an empty table. */
  function DimensionStats(t: Table): (s: Stats)
    ensures s.dimensionCount == |t|
    ensures s.totalVectors == TotalVectors(AllDimensions(t))
    ensures s.averageVectors.None? <==> |t| == 0
    ensures s.averageVectors.Some? ==>
      2 * s.averageVectors.value * |t| <= 2 * s.totalVectors + |t| < 2 * (s.averageVectors.value + 1) * |t|
  {
    var ds := AllDimensions(t);
    var total := TotalVectors(ds);
    Stats(|ds|, total, if |ds| == 0 then None else Some(RoundDiv(total, |ds|)))
  }
}
