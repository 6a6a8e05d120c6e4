/** The records the application generates and stores: a generation result and the inspiration
    record it becomes once saved, with its metadata, and the partial updates applied to one. */
module Records {
  import opened Wrappers
  import opened InfoSpace

  /** What `generateInspirationStream` returns. `createdTime` is a time in milliseconds
      (the application stores it as an ISO 8601 string and compares it through `new Date`). */
  datatype GenerationResult = GenerationResult(
    content: string,
    sourceVectors: Selection,
    userPrompt: string,
    createdTime: int,
    assistantId: string)

  datatype Metadata = Metadata(rating: int, isFavorite: bool, tags: seq<string>)

  /** A stored inspiration: the generation result's fields, its id, the time it was saved and
      its metadata. */
  datatype Inspiration = Inspiration(
    content: string,
    sourceVectors: Selection,
    userPrompt: string,
    assistantId: string,
    id: string,
    createdTime: int,
    metadata: Metadata)

  /** The metadata of a newly saved inspiration. */
  const FreshMetadata := Metadata(0, false, [])

  /** `{...inspiration, id, createdTime, metadata: {rating: 0, isFavorite: false, tags: []}}`. */
  function NewRecord(g: GenerationResult, id: string, now: int): (r: Inspiration)
    ensures r.id == id && r.createdTime == now && r.metadata == FreshMetadata
    ensures r.content == g.content && r.sourceVectors == g.sourceVectors
    ensures r.userPrompt == g.userPrompt && r.assistantId == g.assistantId
  {
    Inspiration(g.content, g.sourceVectors, g.userPrompt, g.assistantId, id, now, FreshMetadata)
  }

  /** The `metadata` part of an update: the fields it names. */
  datatype MetadataUpdate = MetadataUpdate(rating: Option<int>, isFavorite: Option<bool>, tags: Option<seq<string>>)

  /** The argument of `updateInspiration`: the fields it names, `None` for the others. */
  datatype Update = Update(
    content: Option<string>,
    sourceVectors: Option<Selection>,
    userPrompt: Option<string>,
    assistantId: Option<string>,
    id: Option<string>,
    createdTime: Option<int>,
    metadata: Option<MetadataUpdate>)

  const NoUpdate := Update(None, None, None, None, None, None, None)

  /** `{...m, ...u}` on metadata. */
  function MergeMetadata(m: Metadata, u: MetadataUpdate): Metadata {
    Metadata(u.rating.GetOr(m.rating), u.isFavorite.GetOr(m.isFavorite), u.tags.GetOr(m.tags))
  }

  /** `{...r, ...u, metadata: {...r.metadata, ...(u.metadata || {})}}`. */
  function ApplyUpdate(r: Inspiration, u: Update): Inspiration {
    Inspiration(
      u.content.GetOr(r.content),
      u.sourceVectors.GetOr(r.sourceVectors),
      u.userPrompt.GetOr(r.userPrompt),
      u.assistantId.GetOr(r.assistantId),
      u.id.GetOr(r.id),
      u.createdTime.GetOr(r.createdTime),
      match u.metadata
      case Some(m) => MergeMetadata(r.metadata, m)
      case None => r.metadata)
  }

  /** A shallow merge overrides exactly the fields the update names, at both levels: every
      top-level field and, when the update carries `metadata`, every metadata field. Applying an
      update twice is applying it once, and the empty update changes nothing. */
  lemma {:induction false} ApplyUpdateSpec(r: Inspiration, u: Update)
    ensures var a := ApplyUpdate(r, u);
      && Takes(u.content, r.content, a.content)
      && Takes(u.sourceVectors, r.sourceVectors, a.sourceVectors)
      && Takes(u.userPrompt, r.userPrompt, a.userPrompt)
      && Takes(u.assistantId, r.assistantId, a.assistantId)
      && Takes(u.id, r.id, a.id)
      && Takes(u.createdTime, r.createdTime, a.createdTime)
    ensures u.metadata.None? ==> ApplyUpdate(r, u).metadata == r.metadata
    ensures u.metadata.Some? ==>
      var m := ApplyUpdate(r, u).metadata;
      && Takes(u.metadata.value.rating, r.metadata.rating, m.rating)
      && Takes(u.metadata.value.isFavorite, r.metadata.isFavorite, m.isFavorite)
      && Takes(u.metadata.value.tags, r.metadata.tags, m.tags)
    ensures ApplyUpdate(ApplyUpdate(r, u), u) == ApplyUpdate(r, u)
    ensures ApplyUpdate(r, NoUpdate) == r
  {
  }
}
