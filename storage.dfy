/** The persistence service: the inspiration list, the per-provider API-key map and the
    application settings, each kept under its own localStorage key. The model keeps what the
    keys hold in the service's fields; serialisation is the identity. */
module Storage {
  import opened Wrappers
  import opened Seqs
  import opened Records

  const InspirationsKey := "indienstein_inspirations"
  const SettingsKey := "indienstein_settings"
  const FavoritesKey := "indienstein_favorites"
  const ApiKeysKey := "indienstein_api_keys"

  datatype AppSettings = AppSettings(
    defaultProvider: string,
    defaultModel: string,
    longFormat: bool,
    useWeightedRandom: bool)

  /** What `getSettings` answers when nothing has been saved. */
  const DefaultAppSettings := AppSettings("siliconflow", "deepseek-ai/DeepSeek-V3", true, false)

  /** `findIndex(i => i.id === id)`: the first record with that id. */
  function FindIndex(list: seq<Inspiration>, id: string): (r: Option<nat>)
    ensures r.Some? ==> r.value < |list| && list[r.value].id == id
    ensures r.Some? ==> forall j :: 0 <= j < r.value ==> list[j].id != id
    ensures r.None? ==> forall j :: 0 <= j < |list| ==> list[j].id != id
    decreases |list|
  {
    if |list| == 0 then None
    else if list[0].id == id then Some(0)
    else
      match FindIndex(list[1..], id)
      case None => None
      case Some(i) => Some(i + 1)
  }

  /** Record `j` of `list` is the first one whose id is `id`. */
  predicate FirstWithId(list: seq<Inspiration>, id: string, j: nat)
    requires j < |list|
  {
    list[j].id == id && forall k :: 0 <= k < j ==> list[k].id != id
  }

  /** The list after `updateInspiration(id, u)`. */
  function Updated(list: seq<Inspiration>, id: string, u: Update): seq<Inspiration> {
    match FindIndex(list, id)
    case None => list
    case Some(i) => list[i := ApplyUpdate(list[i], u)]
  }

  /** An update changes only the first record with the id, merging the update into it; the list
      keeps its length, and an unknown id leaves it as it was. */
  lemma {:induction false} UpdatedSpec(list: seq<Inspiration>, id: string, u: Update)
    ensures |Updated(list, id, u)| == |list|
    ensures forall j :: 0 <= j < |list| ==>
      Updated(list, id, u)[j] == if FirstWithId(list, id, j) then ApplyUpdate(list[j], u) else list[j]
    ensures (forall j :: 0 <= j < |list| ==> list[j].id != id) ==> Updated(list, id, u) == list
  {
  }

  /** The list after `deleteInspiration(id)`: `splice(index, 1)` at the first match. */
  function Deleted(list: seq<Inspiration>, id: string): seq<Inspiration> {
    match FindIndex(list, id)
    case None => list
    case Some(i) => list[..i] + list[i + 1..]
  }

  /** Deleting removes exactly the first record with the id and keeps the others in order. */
  lemma {:induction false} DeletedSpec(list: seq<Inspiration>, id: string)
    ensures (forall j :: 0 <= j < |list| ==> list[j].id != id) ==> Deleted(list, id) == list
    ensures forall i :: 0 <= i < |list| && FirstWithId(list, id, i) ==>
      && Deleted(list, id) == list[..i] + list[i + 1..]
      && multiset(Deleted(list, id)) + multiset{list[i]} == multiset(list)
  {
    if FindIndex(list, id).Some? {
      var i := FindIndex(list, id).value;
      assert list == list[..i] + [list[i]] + list[i + 1..];
    }
  }

  /** The deleted list is the original with some records left out. */
  lemma {:induction false} DeletedIsSubsequence(list: seq<Inspiration>, id: string)
    ensures IsSubsequence(Deleted(list, id), list)
  {
    match FindIndex(list, id)
    case None => SubsequenceRefl(list);
    case Some(i) => DropOneIsSubsequence(list, i);
  }

  lemma {:induction false} DropOneIsSubsequence<T>(s: seq<T>, i: nat)
    requires i < |s|
    ensures IsSubsequence(s[..i] + s[i + 1..], s)
    decreases i
  {
    if i == 0 {
      assert s[..0] + s[1..] == s[1..];
      SubsequenceRefl(s[1..]);
      SubsequenceCons(s[1..], s[1..], s[0]);
      assert [s[0]] + s[1..] == s;
    } else {
      DropOneIsSubsequence(s[1..], i - 1);
      var d := s[..i] + s[i + 1..];
      assert d[0] == s[0];
      assert d[1..] == s[1..][..i - 1] + s[1..][i..];
    }
  }

  /** `Math.max(0, Math.min(5, rating))`. */
  function ClampRating(rating: int): int {
    if rating > 5 then 5 else if rating < 0 then 0 else rating
  }

  function RatingUpdate(rating: int): Update {
    NoUpdate.(metadata := Some(MetadataUpdate(Some(ClampRating(rating)), None, None)))
  }

  function FavoriteUpdate(isFavorite: bool): Update {
    NoUpdate.(metadata := Some(MetadataUpdate(None, Some(isFavorite), None)))
  }

  /** Setting a rating stores it clamped into `[0, 5]`, touching no other field of the record. */
  lemma {:induction false} RatingUpdateSpec(list: seq<Inspiration>, id: string, rating: int, i: nat)
    requires i < |list| && FirstWithId(list, id, i)
    ensures var r := Updated(list, id, RatingUpdate(rating))[i];
      && 0 <= r.metadata.rating <= 5
      && r.metadata.rating == (if rating < 0 then 0 else if rating > 5 then 5 else rating)
      && r == list[i].(metadata := list[i].metadata.(rating := r.metadata.rating))
  {
    UpdatedSpec(list, id, RatingUpdate(rating));
  }

  /** Setting the favourite flag changes that flag of the record and nothing else. */
  lemma {:induction false} FavoriteUpdateSpec(list: seq<Inspiration>, id: string, isFavorite: bool, i: nat)
    requires i < |list| && FirstWithId(list, id, i)
    ensures Updated(list, id, FavoriteUpdate(isFavorite))[i]
      == list[i].(metadata := list[i].metadata.(isFavorite := isFavorite))
  {
    UpdatedSpec(list, id, FavoriteUpdate(isFavorite));
  }

  /** The comparator `new Date(b.createdTime) - new Date(a.createdTime)`: newest first. */
  function Newer(): (Inspiration, Inspiration) -> bool {
    (a: Inspiration, b: Inspiration) => a.createdTime >= b.createdTime
  }

  /** `s.slice(0, end)`: a negative end counts from the back. */
  function SliceTo<T>(s: seq<T>, end: int): seq<T> {
    if end >= 0 then Take(s, end)
    else if |s| + end > 0 then Take(s, |s| + end)
    else []
  }

  /** `getRecentInspirations(count)`. */
  function Recent(list: seq<Inspiration>, count: int): seq<Inspiration> {
    SliceTo(SortBy(list, Newer()), count)
  }

  /** The recent list holds at most `count` records of the list, newest first; when `count`
      covers the whole list, it is the whole list reordered. */
  lemma {:induction false} RecentSpec(list: seq<Inspiration>, count: int)
    ensures count >= 0 ==> |Recent(list, count)| == if count < |list| then count else |list|
    ensures count < 0 ==> |Recent(list, count)| == if |list| + count > 0 then |list| + count else 0
    ensures SortedBy(Recent(list, count), Newer())
    ensures multiset(Recent(list, count)) <= multiset(list)
    ensures count >= |list| ==> multiset(Recent(list, count)) == multiset(list)
  {
    var sorted := SortBy(list, Newer());
    assert |sorted| == |list| by {
      assert |multiset(sorted)| == |multiset(list)|;
    }
    SortBySorted(list, Newer());
    var r := Recent(list, count);
    assert r == sorted[..|r|];
    assert sorted == r + sorted[|r|..];
  }

  /** The records kept are the newest: no record left out was created after a record kept. */
  lemma {:induction false} RecentKeepsNewest(list: seq<Inspiration>, count: int)
    ensures forall x: Inspiration, y: Inspiration ::
      x in multiset(list) - multiset(Recent(list, count)) && y in Recent(list, count) ==>
      x.createdTime <= y.createdTime
  {
    var sorted := SortBy(list, Newer());
    SortBySorted(list, Newer());
    var r := Recent(list, count);
    assert r == sorted[..|r|];
    NewestFirstSplit(sorted, |r|);
  }

  /** Cutting a newest-first list leaves nothing behind that is newer than what is kept. */
  lemma {:induction false} NewestFirstSplit(sorted: seq<Inspiration>, k: nat)
    requires k <= |sorted| && SortedBy(sorted, Newer())
    ensures multiset(sorted) - multiset(sorted[..k]) == multiset(sorted[k..])
    ensures forall x: Inspiration, y: Inspiration :: x in multiset(sorted[k..]) && y in sorted[..k] ==>
      x.createdTime <= y.createdTime
  {
    assert sorted == sorted[..k] + sorted[k..];
    forall x: Inspiration, y: Inspiration | x in multiset(sorted[k..]) && y in sorted[..k]
      ensures x.createdTime <= y.createdTime
    {
      var i :| 0 <= i < |sorted[k..]| && sorted[k..][i] == x;
      var j :| 0 <= j < k && sorted[..k][j] == y;
      assert Newer()(sorted[j], sorted[k + i]);
    }
  }

  /** `getFavoriteInspirations`. */
  function Favorites(list: seq<Inspiration>): seq<Inspiration> {
    Filter(list, (r: Inspiration) => r.metadata.isFavorite)
  }

  /** The favourites are exactly the records marked as favourite, in their stored order. */
  lemma {:induction false} FavoritesSpec(list: seq<Inspiration>)
    ensures forall r :: r in Favorites(list) <==> r in list && r.metadata.isFavorite
    ensures IsSubsequence(Favorites(list), list)
  {
    FilterIsSubsequence(list, (r: Inspiration) => r.metadata.isFavorite);
  }

  /** The records `saveBatchInspirations` appends: one per present item, in order; item `j` is
      saved under `ids(j)`. */
  function BatchSaved(items: seq<Option<GenerationResult>>, ids: nat -> string, now: int): seq<Inspiration>
    decreases |items|
  {
    if |items| == 0 then []
    else
      var init := BatchSaved(items[..|items| - 1], ids, now);
      match items[|items| - 1]
      case None => init
      case Some(g) => init + [NewRecord(g, ids(|items| - 1), now)]
  }

  function IdsOf(records: seq<Inspiration>): (r: seq<string>)
    ensures |r| == |records| && forall k :: 0 <= k < |r| ==> r[k] == records[k].id
  {
    seq(|records|, k requires 0 <= k < |records| => records[k].id)
  }

  lemma {:induction false} BatchSavedLength(items: seq<Option<GenerationResult>>, ids: nat -> string, now: int)
    ensures |BatchSaved(items, ids, now)| <= |items|
    decreases |items|
  {
    if |items| > 0 {
      BatchSavedLength(items[..|items| - 1], ids, now);
    }
  }

  /** Each saved record is a fresh record of a present item, under that item's id. */
  lemma {:induction false} BatchSavedFrom(items: seq<Option<GenerationResult>>, ids: nat -> string, now: int, k: nat)
    returns (j: nat)
    requires k < |BatchSaved(items, ids, now)|
    ensures j < |items| && items[j].Some?
    ensures BatchSaved(items, ids, now)[k] == NewRecord(items[j].value, ids(j), now)
    decreases |items|
  {
    var init := items[..|items| - 1];
    var bi := BatchSaved(init, ids, now);
    if k < |bi| {
      j := BatchSavedFrom(init, ids, now, k);
      assert items[j] == init[j];
    } else {
      j := |items| - 1;
    }
  }

  /** When every item is present, the batch saves all of them, in order. */
  lemma {:induction false} BatchSavedAllPresent(items: seq<Option<GenerationResult>>, ids: nat -> string, now: int)
    requires forall j :: 0 <= j < |items| ==> items[j].Some?
    ensures |BatchSaved(items, ids, now)| == |items|
    ensures forall j :: 0 <= j < |items| ==> BatchSaved(items, ids, now)[j] == NewRecord(items[j].value, ids(j), now)
    decreases |items|
  {
    if |items| > 0 {
      var init := items[..|items| - 1];
      BatchSavedAllPresent(init, ids, now);
      assert BatchSaved(items, ids, now) == BatchSaved(init, ids, now) + [NewRecord(items[|items| - 1].value, ids(|items| - 1), now)];
    }
  }

  /** `apiKeys[provider] || null`. */
  function ApiKeyOf(keys: map<string, string>, provider: string): (r: Option<string>)
    ensures r.Some? ==> provider in keys && r.value == keys[provider] && r.value != ""
  {
    if provider in keys && keys[provider] != "" then Some(keys[provider]) else None
  }

  /** After `saveApiKey(p, k)` the key of `p` reads back as `k` (`null` if `k` is empty), and
      every other provider's key is as before. */
  lemma {:induction false} SaveThenGetApiKey(keys: map<string, string>, p: string, k: string, q: string)
    ensures ApiKeyOf(keys[p := k], p) == if k == "" then None else Some(k)
    ensures q != p ==> ApiKeyOf(keys[p := k], q) == ApiKeyOf(keys, q)
  {
  }

  /** The map after `removeApiKey(p)`: the entry is deleted only when its key is truthy. */
  function WithoutApiKey(keys: map<string, string>, provider: string): map<string, string> {
    if ApiKeyOf(keys, provider).Some? then keys - {provider} else keys
  }

  lemma {:induction false} WithoutApiKeySpec(keys: map<string, string>, p: string, q: string)
    ensures ApiKeyOf(WithoutApiKey(keys, p), p).None?
    ensures q != p ==> ApiKeyOf(WithoutApiKey(keys, p), q) == ApiKeyOf(keys, q)
    ensures ApiKeyOf(keys, p).None? ==> WithoutApiKey(keys, p) == keys
    ensures ApiKeyOf(keys, p).Some? ==> p !in WithoutApiKey(keys, p)
  {
  }

  /** The storage service over the values its four localStorage keys hold; `items` holds any
      other localStorage entry. */
  class StorageService {
    var inspirations: seq<Inspiration>
    var apiKeys: map<string, string>
    var settings: Option<AppSettings>
    var items: map<string, string>

    /** A service over an empty localStorage. */
    constructor()
      ensures inspirations == [] && apiKeys == map[] && settings.None? && items == map[]
    {
      inspirations := [];
      apiKeys := map[];
      settings := None;
      items := map[];
    }

    /** `saveInspiration(inspiration)`; `freshId` is what `generateUniqueId` returns and `now`
        the current time. */
    method SaveInspiration(inspiration: Option<GenerationResult>, freshId: string, now: int) returns (id: Option<string>)
      modifies this
      ensures inspiration.None? ==> id.None? && inspirations == old(inspirations)
      ensures inspiration.Some? ==>
        id == Some(freshId) && inspirations == old(inspirations) + [NewRecord(inspiration.value, freshId, now)]
      ensures apiKeys == old(apiKeys) && settings == old(settings) && items == old(items)
    {
      if inspiration.None? {
        return None;
      }
      var list := inspirations;
      var record := NewRecord(inspiration.value, freshId, now);
      list := list + [record];
      inspirations := list;
      id := Some(freshId);
    }

    /** `saveBatchInspirations(batch)`; `None` is an argument that is not an array. Item `j`
        gets the id `ids(j)`. */
    method SaveBatchInspirations(batch: Option<seq<Option<GenerationResult>>>, ids: nat -> string, now: int)
      returns (saved: seq<string>)
      modifies this
      ensures batch.None? ==> saved == [] && inspirations == old(inspirations)
      ensures batch.Some? ==>
        && inspirations == old(inspirations) + BatchSaved(batch.value, ids, now)
        && saved == IdsOf(BatchSaved(batch.value, ids, now))
      ensures apiKeys == old(apiKeys) && settings == old(settings) && items == old(items)
    {
      saved := [];
      if batch.None? {
        return;
      }
      var b := batch.value;
      for j := 0 to |b|
        invariant inspirations == old(inspirations) + BatchSaved(b[..j], ids, now)
        invariant saved == IdsOf(BatchSaved(b[..j], ids, now))
        invariant apiKeys == old(apiKeys) && settings == old(settings) && items == old(items)
      {
        assert b[..j + 1][..j] == b[..j];
        var id := SaveInspiration(b[j], ids(j), now);
        if id.Some? {
          saved := saved + [id.value];
        }
      }
      assert b[..|b|] == b;
    }

    function GetInspirations(): seq<Inspiration>
      reads this
    {
      inspirations
    }

    function GetRecentInspirations(count: int): seq<Inspiration>
      reads this
    {
      Recent(inspirations, count)
    }

    function GetFavoriteInspirations(): seq<Inspiration>
      reads this
    {
      Favorites(inspirations)
    }

    /** `updateInspiration(id, updates)`: `true` exactly when a record has that id. */
    method UpdateInspiration(id: string, updates: Update) returns (ok: bool)
      modifies this
      ensures ok <==> exists j :: 0 <= j < |old(inspirations)| && old(inspirations)[j].id == id
      ensures inspirations == Updated(old(inspirations), id, updates)
      ensures apiKeys == old(apiKeys) && settings == old(settings) && items == old(items)
    {
      var list := inspirations;
      var index := FindIndex(list, id);
      if index.None? {
        return false;
      }
      var i := index.value;
      list := list[i := ApplyUpdate(list[i], updates)];
      inspirations := list;
      ok := true;
    }

    /** `deleteInspiration(id)`: `true` exactly when a record has that id. */
    method DeleteInspiration(id: string) returns (ok: bool)
      modifies this
      ensures ok <==> exists j :: 0 <= j < |old(inspirations)| && old(inspirations)[j].id == id
      ensures inspirations == Deleted(old(inspirations), id)
      ensures apiKeys == old(apiKeys) && settings == old(settings) && items == old(items)
    {
      var list := inspirations;
      var index := FindIndex(list, id);
      if index.None? {
        return false;
      }
      var i := index.value;
      list := list[..i] + list[i + 1..];
      inspirations := list;
      ok := true;
    }

    method SetInspirationFavorite(id: string, isFavorite: bool) returns (ok: bool)
      modifies this
      ensures ok <==> exists j :: 0 <= j < |old(inspirations)| && old(inspirations)[j].id == id
      ensures inspirations == Updated(old(inspirations), id, FavoriteUpdate(isFavorite))
      ensures apiKeys == old(apiKeys) && settings == old(settings) && items == old(items)
    {
      ok := UpdateInspiration(id, FavoriteUpdate(isFavorite));
    }

    method SetInspirationRating(id: string, rating: int) returns (ok: bool)
      modifies this
      ensures ok <==> exists j :: 0 <= j < |old(inspirations)| && old(inspirations)[j].id == id
      ensures inspirations == Updated(old(inspirations), id, RatingUpdate(rating))
      ensures apiKeys == old(apiKeys) && settings == old(settings) && items == old(items)
    {
      ok := UpdateInspiration(id, RatingUpdate(rating));
    }

    method SaveSettings(s: AppSettings)
      modifies this
      ensures settings == Some(s)
      ensures inspirations == old(inspirations) && apiKeys == old(apiKeys) && items == old(items)
    {
      settings := Some(s);
    }

    /** `getSettings`: the saved settings, or the defaults. */
    function GetSettings(): (s: AppSettings)
      reads this
      ensures settings.None? ==> s == DefaultAppSettings
      ensures settings.Some? ==> s == settings.value
    {
      settings.GetOr(DefaultAppSettings)
    }

    method SaveApiKey(provider: string, apiKey: string)
      modifies this
      ensures apiKeys == old(apiKeys)[provider := apiKey]
      ensures inspirations == old(inspirations) && settings == old(settings) && items == old(items)
    {
      var keys := apiKeys;
      keys := keys[provider := apiKey];
      apiKeys := keys;
    }

    function GetApiKey(provider: string): Option<string>
      reads this
    {
      ApiKeyOf(apiKeys, provider)
    }

    /** `removeApiKey(provider)`: `true` exactly when a truthy key was stored and deleted. */
    method RemoveApiKey(provider: string) returns (removed: bool)
      modifies this
      ensures removed <==> ApiKeyOf(old(apiKeys), provider).Some?
      ensures apiKeys == WithoutApiKey(old(apiKeys), provider)
      ensures inspirations == old(inspirations) && settings == old(settings) && items == old(items)
    {
      var keys := apiKeys;
      if provider in keys && keys[provider] != "" {
        keys := keys - {provider};
        apiKeys := keys;
        return true;
      }
      return false;
    }

    /** `localStorage.removeItem(key)`: clears whichever value that key holds. */
    method RemoveItem(key: string)
      modifies this
      ensures inspirations == if key == InspirationsKey then [] else old(inspirations)
      ensures apiKeys == if key == ApiKeysKey then map[] else old(apiKeys)
      ensures settings == if key == SettingsKey then None else old(settings)
      ensures items == old(items) - {key}
    {
      if key == InspirationsKey {
        inspirations := [];
      } else if key == ApiKeysKey {
        apiKeys := map[];
      } else if key == SettingsKey {
        settings := None;
      }
      items := items - {key};
    }

    /** `clearAllData(confirm)`: `answer` is what the confirmation dialog returns when asked. */
    method ClearAllData(confirm: bool, answer: bool) returns (cleared: bool)
      modifies this
      ensures cleared <==> !confirm || answer
      ensures cleared ==> (inspirations == [] && apiKeys == map[] && settings.None?
        && items == old(items) - {InspirationsKey, SettingsKey, FavoritesKey, ApiKeysKey})
      ensures !cleared ==> (inspirations == old(inspirations) && apiKeys == old(apiKeys)
        && settings == old(settings) && items == old(items))
    {
      if confirm && !answer {
        return false;
      }
      RemoveItem(InspirationsKey);
      RemoveItem(SettingsKey);
      RemoveItem(FavoritesKey);
      RemoveItem(ApiKeysKey);
      return true;
    }
  }
}
