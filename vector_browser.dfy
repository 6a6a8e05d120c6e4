/** The information-space browser (`InfoSpaceModule`): which dimension is selected, the search
    text and tag filter applied to its vectors, the tag list and tag statistics it shows, and the
    in-place re-sorting of a dimension's vectors. */
module VectorBrowser {
  import opened Wrappers
  import opened Text
  import opened Assoc
  import opened Seqs
  import opened InfoSpace

  /** The property name `InfoSpace.dimensions[sel]` looks up: `null` converts to `"null"`. */
  function PropertyKey(sel: Option<string>): string {
    match sel
    case Some(s) => s
    case None => "null"
  }

  /** The search test: the query, lower-cased, occurs in the lower-cased name or in the
      lower-cased description of a vector that has one. */
  predicate MatchesQuery(v: Vector, query: string) {
    || Includes(ToLower(v.name), ToLower(query))
    || (v.description != "" && Includes(ToLower(v.description), ToLower(query)))
  }

  /** The tag test: the vector carries at least one of the filter tags. */
  predicate HasFilterTag(v: Vector, filterTags: seq<string>) {
    exists i :: 0 <= i < |filterTags| && filterTags[i] in v.tags
  }

  /** A vector passes both filters; an empty query or an empty tag list filters nothing. */
  predicate Passes(v: Vector, query: string, filterTags: seq<string>) {
    (query == "" || MatchesQuery(v, query)) && (filterTags == [] || HasFilterTag(v, filterTags))
  }

  /** The filtering step of `renderVectorBrowser`: the search filter, then the tag filter. */
  function FilterVectors(vs: seq<Vector>, query: string, filterTags: seq<string>): (r: seq<Vector>)
    ensures query == "" && filterTags == [] ==> r == vs
    ensures forall i :: 0 <= i < |r| ==> r[i] in vs && Passes(r[i], query, filterTags)
    ensures forall i :: 0 <= i < |vs| && Passes(vs[i], query, filterTags) ==> vs[i] in r
  {
    var searched := if query != "" then Filter(vs, v => MatchesQuery(v, query)) else vs;
    if |filterTags| > 0 then Filter(searched, v => HasFilterTag(v, filterTags)) else searched
  }

  /** The vectors shown keep their order in the dimension. */
  lemma {:induction false} FilterVectorsKeepsOrder(vs: seq<Vector>, query: string, filterTags: seq<string>)
    ensures IsSubsequence(FilterVectors(vs, query, filterTags), vs)
  {
    var searched := if query != "" then Filter(vs, v => MatchesQuery(v, query)) else vs;
    var tagged := if |filterTags| > 0 then Filter(searched, v => HasFilterTag(v, filterTags)) else searched;
    if query != "" {
      FilterIsSubsequence(vs, v => MatchesQuery(v, query));
    } else {
      SubsequenceRefl(vs);
    }
    if |filterTags| > 0 {
      FilterIsSubsequence(searched, v => HasFilterTag(v, filterTags));
    } else {
      SubsequenceRefl(searched);
    }
    SubsequenceTrans(tagged, searched, vs);
  }

  /** What the vector browser shows. */
  datatype View =
    | Placeholder                                 // no dimension selected
    | NoData                                      // the selected dimension does not exist
    | Listing(shown: seq<Vector>, total: nat)     // the filtered vectors, out of `total`

  /** Every tag of every vector, in order, repetitions included. */
  function FlatTags(vs: seq<Vector>): (r: seq<string>)
    decreases |vs|
  {
    if |vs| == 0 then [] else FlatTags(vs[..|vs| - 1]) + vs[|vs| - 1].tags
  }

  lemma {:induction false} FlatTagsMember(vs: seq<Vector>, tag: string)
    ensures tag in FlatTags(vs) <==> exists i :: 0 <= i < |vs| && tag in vs[i].tags
    decreases |vs|
  {
    if |vs| > 0 {
      FlatTagsMember(vs[..|vs| - 1], tag);
      assert forall i :: 0 <= i < |vs| - 1 ==> vs[..|vs| - 1][i] == vs[i];
    }
  }

  /** `extractAllTags`: each tag once, in first-seen order, through a `Set`. */
  method ExtractAllTags(vectors: seq<Vector>) returns (tags: seq<string>)
    ensures tags == Dedup(FlatTags(vectors))
  {
    tags := [];
    var i := 0;
    while i < |vectors|
      invariant 0 <= i <= |vectors|
      invariant tags == Dedup(FlatTags(vectors[..i]))
    {
      var vt := vectors[i].tags;
      var j := 0;
      assert FlatTags(vectors[..i]) + vt[..0] == FlatTags(vectors[..i]);
      while j < |vt|
        invariant 0 <= j <= |vt|
        invariant tags == Dedup(FlatTags(vectors[..i]) + vt[..j])
      {
        var seen := FlatTags(vectors[..i]) + vt[..j];
        assert FlatTags(vectors[..i]) + vt[..j + 1] == seen + [vt[j]];
        if vt[j] !in tags {
          tags := tags + [vt[j]];
        }
        j := j + 1;
      }
      assert vectors[..i + 1][..i] == vectors[..i];
      assert vt[..j] == vt;
      i := i + 1;
    }
    assert vectors[..i] == vectors;
  }

  /** The tag list is duplicate-free and covers exactly the tags the vectors carry. */
  lemma {:induction false} AllTagsSpec(vectors: seq<Vector>, tag: string)
    ensures NoDuplicates(Dedup(FlatTags(vectors)))
    ensures tag in Dedup(FlatTags(vectors)) <==> exists i :: 0 <= i < |vectors| && tag in vectors[i].tags
  {
    DedupSpec(FlatTags(vectors));
    FlatTagsMember(vectors, tag);
  }

  /** `tagFrequency[tag] = (tagFrequency[tag] || 0) + 1`. */
  function Bump(freq: Assoc<nat>, tag: string): Assoc<nat> {
    Put(freq, tag, Get(freq, tag).GetOr(0) + 1)
  }

  /** The frequency table after counting `tags` into `freq`. */
  function CountInto(freq: Assoc<nat>, tags: seq<string>): Assoc<nat>
    decreases |tags|
  {
    if |tags| == 0 then freq else Bump(CountInto(freq, tags[..|tags| - 1]), tags[|tags| - 1])
  }

  /** Counting `xs` then `ys` is counting `xs + ys`. */
  lemma {:induction false} CountIntoAppend(freq: Assoc<nat>, xs: seq<string>, ys: seq<string>)
    ensures CountInto(CountInto(freq, xs), ys) == CountInto(freq, xs + ys)
    decreases |ys|
  {
    if |ys| > 0 {
      CountIntoAppend(freq, xs, ys[..|ys| - 1]);
      assert (xs + ys)[..|xs + ys| - 1] == xs + ys[..|ys| - 1];
    } else {
      assert xs + ys == xs;
    }
  }

  /** The frequency table holds one entry per distinct tag, in first-seen order. */
  lemma {:induction false} CountIntoKeys(tags: seq<string>)
    ensures Keys(CountInto([], tags)) == Dedup(tags)
    decreases |tags|
  {
    if |tags| > 0 {
      var init := tags[..|tags| - 1];
      var last := tags[|tags| - 1];
      CountIntoKeys(init);
      var before := CountInto([], init);
      assert CountInto([], tags) == Put(before, last, Get(before, last).GetOr(0) + 1);
      PutKeys<nat>(before, last, Get(before, last).GetOr(0) + 1);
    }
  }

  /** Counting one more occurrence of `x` raises its count by one and changes nothing else. */
  lemma {:induction false} BumpGet(freq: Assoc<nat>, x: string, tag: string)
    ensures Get(Bump(freq, x), tag) == if tag == x then Some(Get(freq, x).GetOr(0) + 1) else Get(freq, tag)
  {
    var n := Get(freq, x).GetOr(0) + 1;
    assert Bump(freq, x) == Put(freq, x, n);
    PutGet<nat>(freq, x, n, tag);
  }

  /** The count stored for a tag is its number of occurrences, `0` standing for no entry. */
  lemma {:induction false} CountIntoCount(tags: seq<string>, tag: string)
    ensures Get(CountInto([], tags), tag).GetOr(0) == multiset(tags)[tag]
    decreases |tags|
  {
    if |tags| > 0 {
      var init := tags[..|tags| - 1];
      var last := tags[|tags| - 1];
      assert tags == init + [last];
      assert multiset(tags) == multiset(init) + multiset{last};
      CountIntoCount(init, tag);
      var before := CountInto([], init);
      assert CountInto([], tags) == Bump(before, last);
      BumpGet(before, last, tag);
    }
  }

  /** Exactly the tags that occur have an entry, and it holds their number of occurrences. */
  lemma {:induction false} CountIntoGet(tags: seq<string>, tag: string)
    ensures Get(CountInto([], tags), tag) == if tag in tags then Some(multiset(tags)[tag]) else None
  {
    CountIntoCount(tags, tag);
    CountIntoKeys(tags);
    DedupSpec(tags);
  }

  /** The frequency table never lists a tag twice. */
  lemma {:induction false} CountIntoUnique(tags: seq<string>)
    ensures UniqueKeys(CountInto([], tags))
  {
    CountIntoKeys(tags);
    DedupSpec(tags);
    var f := CountInto([], tags);
    assert forall i :: 0 <= i < |f| ==> Keys(f)[i] == f[i].0;
  }

  /** Every tag of every vector of every dimension, in order. */
  function DimensionTags(ds: seq<Dimension>): seq<string>
    decreases |ds|
  {
    if |ds| == 0 then [] else DimensionTags(ds[..|ds| - 1]) + FlatTags(ds[|ds| - 1].vectors)
  }

  /** The counting loop of `renderDataStats`, over dimensions, vectors and tags. */
  method TagFrequency(dimensions: seq<Dimension>) returns (freq: Assoc<nat>)
    ensures freq == CountInto([], DimensionTags(dimensions))
  {
    freq := [];
    var i := 0;
    while i < |dimensions|
      invariant 0 <= i <= |dimensions|
      invariant freq == CountInto([], DimensionTags(dimensions[..i]))
    {
      var before := freq;
      freq := CountVectors(freq, dimensions[i].vectors);
      assert dimensions[..i + 1][..i] == dimensions[..i];
      CountIntoAppend([], DimensionTags(dimensions[..i]), FlatTags(dimensions[i].vectors));
      i := i + 1;
    }
    assert dimensions[..i] == dimensions;
  }

  /** The loop over one dimension's vectors. */
  method CountVectors(start: Assoc<nat>, vs: seq<Vector>) returns (freq: Assoc<nat>)
    ensures freq == CountInto(start, FlatTags(vs))
  {
    freq := start;
    var j := 0;
    while j < |vs|
      invariant 0 <= j <= |vs|
      invariant freq == CountInto(start, FlatTags(vs[..j]))
    {
      freq := CountTags(freq, vs[j].tags);
      assert vs[..j + 1][..j] == vs[..j];
      CountIntoAppend(start, FlatTags(vs[..j]), vs[j].tags);
      j := j + 1;
    }
    assert vs[..j] == vs;
  }

  /** The loop over one vector's tags. */
  method CountTags(start: Assoc<nat>, tags: seq<string>) returns (freq: Assoc<nat>)
    ensures freq == CountInto(start, tags)
  {
    freq := start;
    var k := 0;
    while k < |tags|
      invariant 0 <= k <= |tags|
      invariant freq == CountInto(start, tags[..k])
    {
      assert tags[..k + 1][..k] == tags[..k];
      freq := Bump(freq, tags[k]);
      k := k + 1;
    }
    assert tags[..k] == tags;
  }

  /** The comparator `([, a], [, b]) => b - a` as "may stay before". */
  function ByCountDescending(): ((string, nat), (string, nat)) -> bool {
    (a: (string, nat), b: (string, nat)) => a.1 >= b.1
  }

  /** The eight most used tags: the entries sorted by falling count, then `slice(0, 8)`. */
  function TopTags(freq: Assoc<nat>): seq<(string, nat)> {
    Take(SortBy(freq, ByCountDescending()), 8)
  }

  /** At most eight tags, in non-increasing count order. */
  lemma {:induction false} TopTagsOrdered(freq: Assoc<nat>)
    ensures |TopTags(freq)| <= 8
    ensures forall i, j :: 0 <= i < j < |TopTags(freq)| ==> TopTags(freq)[i].1 >= TopTags(freq)[j].1
  {
    SortBySorted(freq, ByCountDescending());
  }

  /** Each tag shown comes with its true count. */
  lemma {:induction false} TopTagsCounts(tags: seq<string>, i: nat)
    requires i < |TopTags(CountInto([], tags))|
    ensures TopTags(CountInto([], tags))[i].0 in tags
    ensures TopTags(CountInto([], tags))[i].1 == multiset(tags)[TopTags(CountInto([], tags))[i].0]
  {
    var freq := CountInto([], tags);
    var sorted := SortBy(freq, ByCountDescending());
    var e := TopTags(freq)[i];
    assert e == sorted[i];
    assert e in multiset(freq);
    CountIntoUnique(tags);
    EntryValue(freq, e);
    CountIntoGet(tags, e.0);
  }

  /** An entry left off the list counts no more than the last entry shown, and then eight
      entries are shown. */
  lemma {:induction false} TopTagsCutOff(freq: Assoc<nat>, e: (string, nat))
    requires e in freq && e !in TopTags(freq)
    ensures |TopTags(freq)| == 8 && e.1 <= TopTags(freq)[7].1
  {
    var sorted := SortBy(freq, ByCountDescending());
    var top := TopTags(freq);
    assert e in multiset(sorted);
    var k :| 0 <= k < |sorted| && sorted[k] == e;
    assert top == sorted[..|top|];
    assert k >= |top|;
    SortBySorted(freq, ByCountDescending());
    assert ByCountDescending()(sorted[7], sorted[k]);
  }

  /** A tag left off the list is used no more often than the last tag shown, and then eight
      tags are shown. */
  lemma {:induction false} TopTagsMostFrequent(tags: seq<string>, t: string)
    requires t in tags && t !in Keys(TopTags(CountInto([], tags)))
    ensures |TopTags(CountInto([], tags))| == 8
    ensures multiset(tags)[t] <= TopTags(CountInto([], tags))[7].1
  {
    var freq := CountInto([], tags);
    var top := TopTags(freq);
    CountIntoGet(tags, t);
    GetMember(freq, t);
    TopTagsCutOff(freq, (t, multiset(tags)[t]));
  }

  /** In a table whose keys are unique, an entry's value is what `Get` returns for its key. */
  lemma {:induction false} EntryValue(freq: Assoc<nat>, e: (string, nat))
    requires e in freq && UniqueKeys(freq)
    ensures Get(freq, e.0) == Some(e.1)
  {
    var i :| 0 <= i < |freq| && freq[i] == e;
    var j := GetEntry(freq, e.0);
  }

  /** The comparator `(a, b) => a.name.localeCompare(b.name)` as "may stay before"; the
      locale's collation `collate` is a parameter. */
  function ByName(collate: (string, string) -> int): (Vector, Vector) -> bool {
    (a: Vector, b: Vector) => collate(a.name, b.name) <= 0
  }

  /** The comparator `bTagCount - aTagCount` as "may stay before". */
  function ByTagCountDescending(): (Vector, Vector) -> bool {
    (a: Vector, b: Vector) => |a.tags| >= |b.tags|
  }

  lemma {:induction false} ByTagCountDescendingIsPreorder()
    ensures TotalPreorder(ByTagCountDescending())
  {
  }

  /** The table after `handleSortChange(sortType)` on the dimension stored under `key`: `'name'`
      and `'tags'` sort its vectors, `'random'` sorts them by the coin flips `coin`, any other
      value and an unknown dimension leave the table as it was. */
  function SortedTable(t: Table, key: string, sortType: string,
                       collate: (string, string) -> int, coin: (Vector, Vector) -> bool): Table
  {
    match Get(t, key)
    case None => t
    case Some(d) =>
      if sortType == "name" then Put(t, key, d.(vectors := SortBy(d.vectors, ByName(collate))))
      else if sortType == "tags" then Put(t, key, d.(vectors := SortBy(d.vectors, ByTagCountDescending())))
      else if sortType == "random" then Put(t, key, d.(vectors := SortBy(d.vectors, coin)))
      else t
  }

  /** Sorting keeps the dimensions, their order and every other dimension, and only permutes the
      sorted dimension's vectors. */
  lemma {:induction false} SortedTableKeeps(t: Table, key: string, sortType: string,
                         collate: (string, string) -> int, coin: (Vector, Vector) -> bool, k: string)
    ensures Keys(SortedTable(t, key, sortType, collate, coin)) == Keys(t)
    ensures k != key ==> Get(SortedTable(t, key, sortType, collate, coin), k) == Get(t, k)
    ensures Get(t, k).Some? ==>
      var d := Get(t, k).value;
      var d' := Get(SortedTable(t, key, sortType, collate, coin), k).value;
      d'.id == d.id && d'.name == d.name && d'.description == d.description &&
      multiset(d'.vectors) == multiset(d.vectors)
  {
    var r := SortedTable(t, key, sortType, collate, coin);
    match Get(t, key)
    case None =>
    case Some(d) =>
      if r != t {
        var sorted :=
          if sortType == "name" then SortBy(d.vectors, ByName(collate))
          else if sortType == "tags" then SortBy(d.vectors, ByTagCountDescending())
          else SortBy(d.vectors, coin);
        assert r == Put(t, key, d.(vectors := sorted));
        PutKeys(t, key, d.(vectors := sorted));
        PutGet(t, key, d.(vectors := sorted), k);
      }
  }

  /** `'name'` leaves the vectors in collation order when the collation is consistent, and
      `'tags'` leaves them in non-increasing order of tag count. */
  lemma {:induction false} SortedTableOrders(t: Table, key: string, collate: (string, string) -> int,
                          coin: (Vector, Vector) -> bool)
    ensures Get(t, key).Some? && TotalPreorder(ByName(collate)) ==>
      var d := Get(SortedTable(t, key, "name", collate, coin), key);
      d.Some? && SortedBy(d.value.vectors, ByName(collate))
    ensures Get(t, key).Some? ==>
      var d := Get(SortedTable(t, key, "tags", collate, coin), key);
      d.Some? && forall i, j :: 0 <= i < j < |d.value.vectors| ==>
        |d.value.vectors[i].tags| >= |d.value.vectors[j].tags|
  {
    if Get(t, key).Some? {
      var d := Get(t, key).value;
      PutGet(t, key, d.(vectors := SortBy(d.vectors, ByName(collate))), key);
      PutGet(t, key, d.(vectors := SortBy(d.vectors, ByTagCountDescending())), key);
      if TotalPreorder(ByName(collate)) {
        SortBySorted(d.vectors, ByName(collate));
      }
      ByTagCountDescendingIsPreorder();
      SortBySorted(d.vectors, ByTagCountDescending());
    }
  }

  /** `InfoSpaceModule`. */
  class Browser {
    var selectedDimension: Option<string>
    var searchQuery: string
    var filterTags: seq<string>
    var isInitialized: bool

    constructor()
      ensures selectedDimension == None && searchQuery == "" && filterTags == [] && !isInitialized
    {
      selectedDimension := None;
      searchQuery := "";
      filterTags := [];
      isInitialized := false;
    }

    /** `initialize`: the rendering it does is not modelled; a second call does nothing. */
    method Initialize()
      modifies this
      ensures isInitialized
      ensures selectedDimension == old(selectedDimension) && searchQuery == old(searchQuery)
      ensures filterTags == old(filterTags)
    {
      if !isInitialized {
        isInitialized := true;
      }
    }

    /** `selectDimension(id)`: selects the dimension and clears the search, keeping the tags. */
    method SelectDimension(id: string)
      modifies this
      ensures selectedDimension == Some(id) && searchQuery == ""
      ensures filterTags == old(filterTags) && isInitialized == old(isInitialized)
    {
      selectedDimension := Some(id);
      searchQuery := "";
    }

    /** `handleSearchInput`: the search field's text becomes the query. */
    method HandleSearchInput(value: string)
      modifies this
      ensures searchQuery == value
      ensures selectedDimension == old(selectedDimension) && filterTags == old(filterTags)
      ensures isInitialized == old(isInitialized)
    {
      searchQuery := value;
    }

    /** `filterByTag(tag)`: adds the tag unless it is already filtered on. */
    method FilterByTag(tag: string)
      modifies this
      ensures filterTags == AddFilterTag(old(filterTags), tag)
      ensures selectedDimension == old(selectedDimension) && searchQuery == old(searchQuery)
      ensures isInitialized == old(isInitialized)
    {
      if tag !in filterTags {
        filterTags := filterTags + [tag];
      }
    }

    /** `clearFilters`. */
    method ClearFilters()
      modifies this
      ensures searchQuery == "" && filterTags == []
      ensures selectedDimension == old(selectedDimension) && isInitialized == old(isInitialized)
    {
      searchQuery := "";
      filterTags := [];
    }

    /** `searchByTag(tag)`: the tag becomes the only filter and the query is cleared. */
    method SearchByTag(tag: string)
      modifies this
      ensures searchQuery == "" && filterTags == [tag]
      ensures selectedDimension == old(selectedDimension) && isInitialized == old(isInitialized)
    {
      searchQuery := "";
      filterTags := [tag];
    }

    /** What `renderVectorBrowser` shows for the table `t`. */
    function View(t: Table): (v: View)
      reads this
      ensures (selectedDimension.None? || selectedDimension == Some("")) <==> v == Placeholder
      ensures v == NoData <==>
        selectedDimension.Some? && selectedDimension.value != "" && selectedDimension.value !in Keys(t)
      ensures v.Listing? ==>
        exists d :: (selectedDimension.value, d) in t && v.total == |d.vectors| &&
          v.shown == FilterVectors(d.vectors, searchQuery, filterTags)
    {
      if selectedDimension.None? || selectedDimension.value == "" then Placeholder
      else
        match GetDimension(t, selectedDimension.value)
        case None => NoData
        case Some(d) => Listing(FilterVectors(d.vectors, searchQuery, filterTags), |d.vectors|)
    }

    /** `handleSortChange`: re-sorts, in the shared table, the vectors of the selected
        dimension. */
    method HandleSortChange(space: Space, sortType: string,
                            collate: (string, string) -> int, coin: (Vector, Vector) -> bool)
      modifies space
      ensures space.dimensions ==
        SortedTable(old(space.dimensions), PropertyKey(selectedDimension), sortType, collate, coin)
    {
      var key := PropertyKey(selectedDimension);
      var dimension := Get(space.dimensions, key);
      if dimension.Some? {
        var d := dimension.value;
        if sortType == "name" {
          space.dimensions := Put(space.dimensions, key, d.(vectors := SortBy(d.vectors, ByName(collate))));
        } else if sortType == "tags" {
          space.dimensions := Put(space.dimensions, key, d.(vectors := SortBy(d.vectors, ByTagCountDescending())));
        } else if sortType == "random" {
          space.dimensions := Put(space.dimensions, key, d.(vectors := SortBy(d.vectors, coin)));
        }
      }
    }
  }

  /** The filter list after `filterByTag(tag)`. */
  function AddFilterTag(tags: seq<string>, tag: string): seq<string> {
    if tag in tags then tags else tags + [tag]
  }

  /** Filtering on a tag twice is filtering on it once, the tag is then present, and no tag is
      ever listed twice. */
  lemma {:induction false} AddFilterTagSpec(tags: seq<string>, tag: string)
    ensures AddFilterTag(AddFilterTag(tags, tag), tag) == AddFilterTag(tags, tag)
    ensures tag in AddFilterTag(tags, tag)
    ensures forall x :: x in AddFilterTag(tags, tag) <==> x in tags || x == tag
    ensures NoDuplicates(tags) ==> NoDuplicates(AddFilterTag(tags, tag))
  {
  }
}
