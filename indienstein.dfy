/** The generation service: random selection of one vector per dimension, the prompt built from
    a selection, the streamed generation of one inspiration and the batch generation loop. The
    callbacks are recorded as the events they receive. */
module Indienstein {
  import opened Wrappers
  import opened Text
  import opened Assoc
  import opened InfoSpace
  import opened Records
  import opened AiService
  import opened Sse
  import opened Completion

  /** `selectFromDimensionIds(ids)`: nothing for a missing or empty list, otherwise one random
      vector for each id whose dimension has vectors (the `useWeight` flag has no effect). */
  function IdSelection(t: Table, ids: Option<seq<string>>, rand: nat -> Unit): Selection {
    match ids
    case None => []
    case Some(s) => if |s| == 0 then [] else Selected(t, s, rand)
  }

  method SelectFromDimensionIds(t: Table, ids: Option<seq<string>>, rand: nat -> Unit) returns (result: Selection)
    ensures result == IdSelection(t, ids, rand)
  {
    result := [];
    if ids.None? || |ids.value| == 0 {
      return;
    }
    result := SelectFromDimensions(t, ids.value, rand);
  }

  /** The selection holds one vector, taken from its own dimension, for exactly the requested
      ids whose dimension has vectors, each id once. */
  lemma {:induction false} IdSelectionSpec(t: Table, ids: Option<seq<string>>, rand: nat -> Unit, k: string)
    ensures UniqueKeys(IdSelection(t, ids, rand))
    ensures k in Keys(IdSelection(t, ids, rand)) <==>
      ids.Some? && k in ids.value && VectorsFromDimension(t, k) != []
    ensures Get(IdSelection(t, ids, rand), k).Some? ==>
      Get(IdSelection(t, ids, rand), k).value in VectorsFromDimension(t, k)
  {
    if ids.Some? && |ids.value| > 0 {
      SelectedKeys(t, ids.value, rand, k);
      SelectedValues(t, ids.value, rand, k);
    }
  }

  /** The ids of all dimensions, in table order. */
  function DimensionIds(t: Table): (ids: seq<string>)
    ensures |ids| == |t| && forall i :: 0 <= i < |t| ==> ids[i] == t[i].1.id
  {
    seq(|AllDimensions(t)|, i requires 0 <= i < |AllDimensions(t)| => AllDimensions(t)[i].id)
  }

  /** `selectFromAllDimensions()`. */
  method SelectFromAllDimensions(t: Table, rand: nat -> Unit) returns (result: Selection)
    ensures result == IdSelection(t, Some(DimensionIds(t)), rand)
  {
    var dimensionIds := DimensionIds(t);
    result := SelectFromDimensionIds(t, Some(dimensionIds), rand);
  }

  /** Over a table whose dimensions carry their own keys as ids, a selection from all dimensions
      picks every dimension that has vectors, and only those. */
  lemma {:induction false} AllSelectionSpec(t: Table, rand: nat -> Unit, k: string)
    requires IdsMatchKeys(t)
    ensures DimensionIds(t) == Keys(t)
    ensures k in Keys(IdSelection(t, Some(DimensionIds(t)), rand)) <==>
      k in Keys(t) && VectorsFromDimension(t, k) != []
  {
    assert DimensionIds(t) == Keys(t);
    IdSelectionSpec(t, Some(DimensionIds(t)), rand, k);
  }

  const PromptHeader := "请根据以下信息元素为我生成一个创意游戏灵感：\n\n"
  const PromptClosing :=
    "请基于这些元素，创造一个有趣、创新的游戏概念。包括：\n1. 游戏核心概念\n2. 主要玩法机制  \n3. 游戏目标\n4. 特色元素\n5. 可能的发展方向\n\n请用简洁明了的语言描述，字数控制在200-500字之间。"
  const DescriptionLabel := "  描述: "
  const ExtraLabel := "额外要求：\n"

  /** The line naming a dimension and its chosen vector. */
  function EntryLine(d: Dimension, v: Vector): string {
    "【" + d.name + "】: " + v.name + "\n"
  }

  /** The description line, present only for a vector with a description. */
  function DescriptionLine(v: Vector): string {
    if v.description != "" then DescriptionLabel + v.description + "\n" else ""
  }

  /** What one selected entry adds to the prompt: nothing for an unknown dimension. */
  function EntryText(t: Table, id: string, v: Vector): string {
    match GetDimension(t, id)
    case None => ""
    case Some(d) => EntryLine(d, v) + DescriptionLine(v) + "\n"
  }

  /** The entries' texts, in the selection's key order. */
  function EntriesText(t: Table, sel: Selection): string
    decreases |sel|
  {
    if |sel| == 0 then ""
    else EntriesText(t, sel[..|sel| - 1]) + EntryText(t, sel[|sel| - 1].0, sel[|sel| - 1].1)
  }

  /** The extra-requirements section, present only when the user prompt is not blank. */
  function ExtraText(userPrompt: string): string {
    if Trim(userPrompt) != "" then ExtraLabel + userPrompt + "\n\n" else ""
  }

  function Prompt(t: Table, sel: Selection, userPrompt: string): string {
    PromptHeader + EntriesText(t, sel) + ExtraText(userPrompt) + PromptClosing
  }

  /** `buildPrompt(selectedVectors, userPrompt)`. */
  method BuildPrompt(t: Table, sel: Selection, userPrompt: string) returns (prompt: string)
    ensures prompt == Prompt(t, sel, userPrompt)
  {
    prompt := PromptHeader;
    for i := 0 to |sel|
      invariant prompt == PromptHeader + EntriesText(t, sel[..i])
    {
      assert sel[..i + 1][..i] == sel[..i];
      prompt := AppendEntry(prompt, t, sel[i].0, sel[i].1);
      AppendAssoc(PromptHeader, EntriesText(t, sel[..i]), EntryText(t, sel[i].0, sel[i].1));
    }
    assert sel[..|sel|] == sel;
    ghost var entries := prompt;
    if Trim(userPrompt) != "" {
      prompt := prompt + ExtraLabel;
      prompt := prompt + (userPrompt + "\n\n");
      AppendAssoc(entries, ExtraLabel, userPrompt + "\n\n");
      AppendAssoc(ExtraLabel, userPrompt, "\n\n");
    } else {
      AppendEmpty(entries);
    }
    prompt := prompt + PromptClosing;
  }

  /** One turn of the loop of `buildPrompt`: the entry's line, its description line when the
      vector has a description, and a blank line, for a dimension the table knows. */
  method AppendEntry(before: string, t: Table, dimensionId: string, vector: Vector) returns (prompt: string)
    ensures prompt == before + EntryText(t, dimensionId, vector)
  {
    prompt := before;
    var dimension := GetDimension(t, dimensionId);
    if dimension.Some? {
      var line := EntryLine(dimension.value, vector);
      prompt := prompt + line;
      if vector.description != "" {
        prompt := prompt + DescriptionLine(vector);
      } else {
        AppendEmpty(before + line);
      }
      prompt := prompt + "\n";
      AppendAssoc4(before, line, DescriptionLine(vector), "\n");
    } else {
      AppendEmpty(before);
    }
  }

  predicate EndsWith(s: string, suffix: string) {
    |suffix| <= |s| && s[|s| - |suffix|..] == suffix
  }

  /** Every prompt opens with the header and ends with the closing guidance; a blank user prompt
      adds nothing, a non-blank one adds its section, verbatim, just before the closing. */
  lemma {:induction false} PromptShape(t: Table, sel: Selection, userPrompt: string)
    ensures StartsWith(Prompt(t, sel, userPrompt), PromptHeader)
    ensures EndsWith(Prompt(t, sel, userPrompt), PromptClosing)
    ensures Trim(userPrompt) == "" ==> Prompt(t, sel, userPrompt) == PromptHeader + EntriesText(t, sel) + PromptClosing
    ensures Trim(userPrompt) != "" ==>
      EndsWith(Prompt(t, sel, userPrompt), ExtraLabel + userPrompt + "\n\n" + PromptClosing)
  {
    Framed(PromptHeader, EntriesText(t, sel), ExtraText(userPrompt), PromptClosing);
    if Trim(userPrompt) == "" {
      assert ExtraText(userPrompt) == "";
      assert PromptHeader + EntriesText(t, sel) + "" == PromptHeader + EntriesText(t, sel);
    }
  }

  lemma {:induction false} Framed(h: string, m: string, x: string, c: string)
    ensures StartsWith(h + m + x + c, h)
    ensures EndsWith(h + m + x + c, c) && EndsWith(h + m + x + c, x + c)
  {
    var s := h + m + x + c;
    assert s == h + (m + x + c);
    assert s[..|h|] == h;
    assert s == (h + m) + (x + c);
    assert s[|s| - |x + c|..] == x + c;
    assert s[|s| - |c|..] == c;
  }

  /** An entry of an unknown dimension adds nothing; a known one adds its line, then the
      description line exactly when the vector has a description, then a blank line. */
  lemma {:induction false} EntryTextSpec(t: Table, id: string, v: Vector)
    ensures id !in Keys(t) ==> EntryText(t, id, v) == ""
    ensures id in Keys(t) ==> StartsWith(EntryText(t, id, v), EntryLine(GetDimension(t, id).value, v))
    ensures id in Keys(t) && v.description == "" ==>
      EntryText(t, id, v) == EntryLine(GetDimension(t, id).value, v) + "\n"
    ensures id in Keys(t) && v.description != "" ==>
      EntryText(t, id, v) == EntryLine(GetDimension(t, id).value, v) + DescriptionLabel + v.description + "\n\n"
  {
    if id in Keys(t) {
      var line := EntryLine(GetDimension(t, id).value, v);
      var rest := DescriptionLine(v) + "\n";
      AppendAssoc(line, DescriptionLine(v), "\n");
      assert (line + rest)[..|line|] == line;
      if v.description != "" {
        AppendAssoc4(line, DescriptionLabel + v.description, "\n", "\n");
      } else {
        AppendEmpty(line);
      }
    }
  }

  /** Entries of dimensions the table does not know are skipped: they leave the prompt as if
      they were not selected. */
  lemma {:induction false} EntriesTextSkipsUnknown(t: Table, sel: Selection, id: string, v: Vector)
    requires id !in Keys(t)
    ensures EntriesText(t, sel + [(id, v)]) == EntriesText(t, sel)
  {
    assert (sel + [(id, v)])[..|sel|] == sel;
  }

  /** The entries' texts are those of the selection's parts, one after the other. */
  lemma {:induction false} EntriesTextAppend(t: Table, a: Selection, b: Selection)
    ensures EntriesText(t, a + b) == EntriesText(t, a) + EntriesText(t, b)
    decreases |b|
  {
    if |b| == 0 {
      assert a + b == a;
    } else {
      var b' := b[..|b| - 1];
      var last := b[|b| - 1];
      assert (a + b)[..|a + b| - 1] == a + b';
      assert (a + b)[|a + b| - 1] == last;
      EntriesTextAppend(t, a, b');
      AppendAssoc(EntriesText(t, a), EntriesText(t, b'), EntryText(t, last.0, last.1));
    }
  }

  const NoVectorsMessage := "没有选择的向量，无法生成灵感"
  const GenerationFailed := "生成失败"
  const AssistantId := "ai-service"

  /** The prompt handed to the completion request (`None` when none is made), the callback
      events and the returned result (`None` for `null`) of one generation. */
  datatype Generation = Generation(prompt: Option<string>, events: seq<Event>, result: Option<GenerationResult>)

  /** `generateInspirationStream(selected, userPrompt, ...)` at time `now`, where `call` is what
      the completion request does (`StreamCall` of the settings and the reply): an empty selection
      is reported and gives no result; otherwise the prompt is sent as the one user message, and
      a thrown error is reported once more, by its message or `生成失败` when the message is empty. */
  function Generate(t: Table, sel: Selection, userPrompt: string, call: Call, now: int): Generation {
    if |sel| == 0 then Generation(None, [Error(NoVectorsMessage)], None)
    else Finish(Prompt(t, sel, userPrompt), call, sel, userPrompt, now)
  }

  /** What follows the completion call: its content becomes the result, or its error is
      reported once more and there is no result. */
  function Finish(prompt: string, call: Call, sel: Selection, userPrompt: string, now: int): Generation {
    match call.out
    case Returned(c) => Generation(Some(prompt), call.events, Some(GenerationResult(c, sel, userPrompt, now, AssistantId)))
    case Threw(m) => Generation(Some(prompt), call.events + [Error(if m == "" then GenerationFailed else m)], None)
  }

  method GenerateInspirationStream(t: Table, sel: Selection, userPrompt: string, s: Settings, reply: Reply,
    extract: string -> Option<string>, completeThrows: Option<string>, now: int) returns (g: Generation)
    ensures g == Generate(t, sel, userPrompt, StreamCall(s, reply, extract, completeThrows), now)
  {
    if |sel| == 0 {
      return Generation(None, [Error(NoVectorsMessage)], None);
    }
    var prompt := BuildPrompt(t, sel, userPrompt);
    var messages := [Message("user", prompt)];
    var _, events, out := RequestCompletionStream(s, messages, reply, extract, completeThrows);
    g := Settle(prompt, events, out, sel, userPrompt, now);
  }

  /** The rest of `generateInspirationStream` once the completion request has settled: the final
      content becomes the result, or the caught error is reported and `null` returned. */
  method Settle(prompt: string, events: seq<Event>, out: Outcome, sel: Selection, userPrompt: string, now: int)
    returns (g: Generation)
    ensures g == Finish(prompt, Call(events, out), sel, userPrompt, now)
  {
    match out {
      case Returned(finalContent) =>
        g := Generation(Some(prompt), events, Some(GenerationResult(finalContent, sel, userPrompt, now, AssistantId)));
      case Threw(m) =>
        var reported := events + [Error(if m == "" then GenerationFailed else m)];
        g := Generation(Some(prompt), reported, None);
    }
  }

  /** For any completion call with the guarantees of `CallShape`, once the request is made: a
      result carries the completed content, the selection, the user prompt, the time and the
      service's id; a generation without result ends with an error report; invalid settings are
      reported twice; a throwing `onComplete` loses the result. */
  lemma {:induction false} FinishSpec(prompt: string, call: Call, s: Settings, completeThrows: Option<string>,
    sel: Selection, userPrompt: string, now: int)
    requires CallShape(call, s, completeThrows)
    ensures var g := Finish(prompt, call, sel, userPrompt, now);
      && g.prompt == Some(prompt)
      && (g.result.Some? ==>
        && |g.events| >= 1 && g.events[|g.events| - 1] == Complete(g.result.value.content)
        && g.result.value.sourceVectors == sel
        && g.result.value.userPrompt == userPrompt
        && g.result.value.createdTime == now
        && g.result.value.assistantId == AssistantId)
      && (g.result.None? ==> |g.events| >= 1 && g.events[|g.events| - 1].Error? && g.events[|g.events| - 1].message != "")
      && (!ValidSettings(s) ==>
        && g.result.None? && |g.events| == 2 && g.events[0] == g.events[1]
        && StartsWith(g.events[0].message, ValidationPrefix))
      && (completeThrows.Some? ==> g.result.None?)
  {
    var g := Finish(prompt, call, sel, userPrompt, now);
    match call.out {
      case Returned(c) =>
        assert g.events == call.events;
      case Threw(m) =>
        var msg := if m == "" then GenerationFailed else m;
        assert g.events == call.events + [Error(msg)];
        assert msg != "" by {
          assert |GenerationFailed| > 0;
        }
        if !ValidSettings(s) {
          assert m != "" by {
            assert |ValidationPrefix| > 0;
          }
        }
    }
  }

  /** `FinishSpec` for the whole generation: an empty selection sends nothing and is reported;
      any other sends its prompt, and its result, if any, comes from a selection that is not
      empty. */
  lemma {:induction false} GenerateSpec(t: Table, sel: Selection, userPrompt: string, s: Settings, call: Call,
    completeThrows: Option<string>, now: int)
    requires CallShape(call, s, completeThrows)
    ensures var g := Generate(t, sel, userPrompt, call, now);
      && (|sel| == 0 ==> g.prompt.None? && g.events == [Error(NoVectorsMessage)] && g.result.None?)
      && (|sel| > 0 ==> g == Finish(Prompt(t, sel, userPrompt), call, sel, userPrompt, now))
      && (g.result.Some? ==> |g.result.value.sourceVectors| > 0)
  {
  }

  /** The batch configuration; `delayBetweenRequests` is what the interface passes. */
  datatype BatchConfig = BatchConfig(
    count: Option<int>,
    dimensionIds: Option<seq<string>>,
    userPrompt: Option<string>,
    delay: Option<int>,
    delayBetweenRequests: Option<int>)

  /** `config.count || 3` and `config.delay || 1`: a missing or zero value takes the default. */
  function Count(c: BatchConfig): int {
    if c.count.None? || c.count.value == 0 then 3 else c.count.value
  }

  function Delay(c: BatchConfig): int {
    if c.delay.None? || c.delay.value == 0 then 1 else c.delay.value
  }

  /** The number of loop iterations: `count` when positive, none otherwise. */
  function Iterations(c: BatchConfig): nat {
    if Count(c) > 0 then Count(c) else 0
  }

  /** The callback events of a batch: `onItemUpdate`, `onItemComplete`, `onItemError`,
      `onProgress` and the pauses between requests. */
  datatype BatchEvent =
    | ItemUpdate(index: nat, text: string)
    | ItemComplete(index: nat, result: Option<GenerationResult>)
    | ItemError(index: nat, message: string)
    | Progress(index: nat, total: int)
    | Sleep(ms: int)

  /** What the per-item wrappers forward: content to `onItemUpdate`, errors to `onItemError`.
      The completion wrapper never reaches `onItemComplete`: it reads `result` before the
      declaration is initialised, which throws. */
  function ItemEvents(i: nat, events: seq<Event>): (es: seq<BatchEvent>)
    ensures forall k :: 0 <= k < |es| ==> (es[k].ItemUpdate? || es[k].ItemError?) && es[k].index == i
    decreases |events|
  {
    if |events| == 0 then []
    else
      ItemEvents(i, events[..|events| - 1]) +
      match events[|events| - 1]
      case Content(text) => [ItemUpdate(i, text)]
      case Complete(_) => []
      case Error(m) => [ItemError(i, m)]
  }

  /** The exception the completion wrapper throws when the caller passed `onItemComplete`. */
  const TdzMessage := "Cannot access 'result' before initialization"

  function CompleteThrows(hasItemComplete: bool): Option<string> {
    if hasItemComplete then Some(TdzMessage) else None
  }

  /** The world a batch runs in: the dimension table, the service settings, the reply to the
      `i`-th request, the JSON step of the stream reader, the random draws of the `i`-th
      selection and the clock at the `i`-th result. */
  datatype Env = Env(
    t: Table,
    s: Settings,
    replies: nat -> Reply,
    extract: string -> Option<string>,
    rand: nat -> nat -> Unit,
    now: nat -> int)

  function ItemSelection(env: Env, c: BatchConfig, i: nat): Selection {
    var ids := c.dimensionIds.GetOr([]);
    if |ids| > 0 then IdSelection(env.t, Some(ids), env.rand(i))
    else IdSelection(env.t, Some(DimensionIds(env.t)), env.rand(i))
  }

  /** What the completion request of item `i` does. */
  function ItemCall(env: Env, hasItemComplete: bool, i: nat): Call {
    StreamCall(env.s, env.replies(i), env.extract, CompleteThrows(hasItemComplete))
  }

  function ItemGeneration(env: Env, c: BatchConfig, hasItemComplete: bool, i: nat): Generation {
    Generate(env.t, ItemSelection(env, c, i), c.userPrompt.GetOr(""), ItemCall(env, hasItemComplete, i), env.now(i))
  }

  /** The generation of each item of a batch, by index. */
  function Items(env: Env, c: BatchConfig, hasItemComplete: bool): nat -> Generation {
    (i: nat) => ItemGeneration(env, c, hasItemComplete, i)
  }

  function Pause(c: BatchConfig, i: nat): seq<BatchEvent> {
    if i < Count(c) - 1 && Delay(c) > 0 then [Sleep(Delay(c) * 1000)] else []
  }

  /** The results of the first `n` items, `items(i)` being the generation of item `i`. */
  function BatchResults(items: nat -> Generation, n: nat): seq<GenerationResult>
    decreases n
  {
    if n == 0 then []
    else
      BatchResults(items, n - 1) +
      match items(n - 1).result
      case Some(r) => [r]
      case None => []
  }

  /** The events of the first `n` items. */
  function BatchTrace(items: nat -> Generation, c: BatchConfig, n: nat): seq<BatchEvent>
    decreases n
  {
    if n == 0 then []
    else
      BatchTrace(items, c, n - 1)
      + ItemEvents(n - 1, items(n - 1).events)
      + [Progress(n - 1, Count(c))]
      + Pause(c, n - 1)
  }

  /** One item of the batch loop: a fresh random selection from the configured dimensions, or
      from all dimensions when none are configured, then a streamed generation with the item's
      callbacks. */
  method GenerateItem(env: Env, c: BatchConfig, hasItemComplete: bool, i: nat) returns (g: Generation)
    ensures g == Items(env, c, hasItemComplete)(i)
  {
    var dimensionIds := c.dimensionIds.GetOr([]);
    var selectedVectors;
    if |dimensionIds| > 0 {
      selectedVectors := SelectFromDimensionIds(env.t, Some(dimensionIds), env.rand(i));
    } else {
      selectedVectors := SelectFromAllDimensions(env.t, env.rand(i));
    }
    g := GenerateInspirationStream(env.t, selectedVectors, c.userPrompt.GetOr(""), env.s, env.replies(i),
      env.extract, CompleteThrows(hasItemComplete), env.now(i));
  }

  /** `generateBatchInspiration(config, ...)`; `hasItemComplete` says whether the caller passed
      `onItemComplete`. */
  method GenerateBatchInspiration(env: Env, config: Option<BatchConfig>, hasItemComplete: bool)
    returns (results: seq<GenerationResult>, trace: seq<BatchEvent>)
    ensures config.None? ==> results == [] && trace == []
    ensures config.Some? ==>
      && results == BatchResults(Items(env, config.value, hasItemComplete), Iterations(config.value))
      && trace == BatchTrace(Items(env, config.value, hasItemComplete), config.value, Iterations(config.value))
  {
    results, trace := [], [];
    if config.None? {
      return;
    }
    var c := config.value;
    var count := Count(c);
    var delay := Delay(c);
    var n := Iterations(c);
    ghost var items := Items(env, c, hasItemComplete);
    for i := 0 to n
      invariant results == BatchResults(items, i)
      invariant trace == BatchTrace(items, c, i)
    {
      var g := GenerateItem(env, c, hasItemComplete, i);
      BatchStep(items, c, i);
      trace := trace + ItemEvents(i, g.events);
      if g.result.Some? {
        results := results + [g.result.value];
      } else {
        assert results + [] == results;
      }
      trace := trace + [Progress(i, count)];
      if i < count - 1 && delay > 0 {
        trace := trace + [Sleep(delay * 1000)];
      } else {
        assert trace + [] == trace;
      }
    }
  }

  /** One more item adds its result, if any, and its events, progress report and pause. */
  lemma {:induction false} BatchStep(items: nat -> Generation, c: BatchConfig, i: nat)
    ensures BatchResults(items, i + 1) ==
      BatchResults(items, i) + if items(i).result.Some? then [items(i).result.value] else []
    ensures BatchTrace(items, c, i + 1) ==
      BatchTrace(items, c, i) + ItemEvents(i, items(i).events) + [Progress(i, Count(c))] + Pause(c, i)
  {
  }

  /** A result of a batch item: it carries the service's id, the configured user prompt and a
      selection that is not empty. */
  predicate ResultOk(r: GenerationResult, userPrompt: string) {
    r.assistantId == AssistantId && r.userPrompt == userPrompt && |r.sourceVectors| > 0
  }

  /** Every item's result is well formed, and an item whose `onComplete` throws has none. */
  lemma {:induction false} ItemGenerationSpec(env: Env, c: BatchConfig, hasItemComplete: bool, i: nat)
    ensures var g := ItemGeneration(env, c, hasItemComplete, i);
      g.result.Some? ==> ResultOk(g.result.value, c.userPrompt.GetOr(""))
    ensures hasItemComplete ==> ItemGeneration(env, c, hasItemComplete, i).result.None?
  {
    var sel, up, call := ItemSelection(env, c, i), c.userPrompt.GetOr(""), ItemCall(env, hasItemComplete, i);
    StreamCallShape(env.s, env.replies(i), env.extract, CompleteThrows(hasItemComplete));
    GenerateSpec(env.t, sel, up, env.s, call, CompleteThrows(hasItemComplete), env.now(i));
    if |sel| > 0 {
      FinishSpec(Prompt(env.t, sel, up), call, env.s, CompleteThrows(hasItemComplete), sel, up, env.now(i));
    }
  }

  /** The results of `n` items number at most `n`, and are the items' results, in order. */
  lemma {:induction false} BatchResultsFrom(items: nat -> Generation, n: nat, k: nat) returns (j: nat)
    requires k < |BatchResults(items, n)|
    ensures j < n && items(j).result == Some(BatchResults(items, n)[k])
    decreases n
  {
    var before := BatchResults(items, n - 1);
    if k < |before| {
      j := BatchResultsFrom(items, n - 1, k);
    } else {
      j := n - 1;
    }
  }

  lemma {:induction false} BatchResultsLength(items: nat -> Generation, n: nat)
    ensures |BatchResults(items, n)| <= n
    ensures (forall i :: 0 <= i < n ==> items(i).result.Some?) ==> |BatchResults(items, n)| == n
    ensures (forall i :: 0 <= i < n ==> items(i).result.None?) ==> BatchResults(items, n) == []
    decreases n
  {
    if n > 0 {
      BatchResultsLength(items, n - 1);
    }
  }

  /** A batch gives at most one result per item, each a service result carrying the configured
      user prompt and a non-empty selection; failed items are left out, and when every item
      succeeds there is one result per item. */
  lemma {:induction false} BatchResultsSpec(env: Env, c: BatchConfig, hasItemComplete: bool, n: nat)
    ensures |BatchResults(Items(env, c, hasItemComplete), n)| <= n
    ensures forall k :: 0 <= k < |BatchResults(Items(env, c, hasItemComplete), n)| ==>
      ResultOk(BatchResults(Items(env, c, hasItemComplete), n)[k], c.userPrompt.GetOr(""))
  {
    var items := Items(env, c, hasItemComplete);
    BatchResultsLength(items, n);
    forall k | 0 <= k < |BatchResults(items, n)|
      ensures ResultOk(BatchResults(items, n)[k], c.userPrompt.GetOr(""))
    {
      var j := BatchResultsFrom(items, n, k);
      ItemGenerationSpec(env, c, hasItemComplete, j);
    }
  }

  /** When the caller passes `onItemComplete`, no item produces a result. */
  lemma {:induction false} BatchWithCompletionCallbackIsEmpty(env: Env, c: BatchConfig, n: nat)
    ensures BatchResults(Items(env, c, true), n) == []
  {
    var items := Items(env, c, true);
    forall i | 0 <= i < n
      ensures items(i).result.None?
    {
      ItemGenerationSpec(env, c, true, i);
    }
    BatchResultsLength(items, n);
  }

  /** `onItemComplete` is never called. */
  lemma {:induction false} NoItemComplete(items: nat -> Generation, c: BatchConfig, n: nat)
    ensures forall k :: 0 <= k < |BatchTrace(items, c, n)| ==> !BatchTrace(items, c, n)[k].ItemComplete?
    decreases n
  {
    if n > 0 {
      NoItemComplete(items, c, n - 1);
    }
  }

  /** The completion report of an item whose generation gave a result. */
  function CompletionReport(i: nat, result: Option<GenerationResult>): seq<BatchEvent> {
    if result.Some? then [ItemComplete(i, result)] else []
  }

  /** The events of the first `n` items when `onItemComplete` is called once the item's result
      is known. */
  function IntendedTrace(items: nat -> Generation, c: BatchConfig, n: nat): seq<BatchEvent>
    decreases n
  {
    if n == 0 then []
    else
      IntendedTrace(items, c, n - 1)
      + ItemEvents(n - 1, items(n - 1).events)
      + CompletionReport(n - 1, items(n - 1).result)
      + [Progress(n - 1, Count(c))]
      + Pause(c, n - 1)
  }

  /** `generateBatchInspiration` with `onItemComplete(i, result)` called after the item's
      result has been assigned: no completion wrapper throws, so every item keeps its result,
      the batch returns what a caller without `onItemComplete` gets, and each result is
      reported under its item's index. */
  method GenerateBatchInspirationIntended(env: Env, config: Option<BatchConfig>)
    returns (results: seq<GenerationResult>, trace: seq<BatchEvent>)
    ensures config.None? ==> results == [] && trace == []
    ensures config.Some? ==>
      && results == BatchResults(Items(env, config.value, false), Iterations(config.value))
      && trace == IntendedTrace(Items(env, config.value, false), config.value, Iterations(config.value))
  {
    results, trace := [], [];
    if config.None? {
      return;
    }
    var c := config.value;
    var count := Count(c);
    var delay := Delay(c);
    var n := Iterations(c);
    ghost var items := Items(env, c, false);
    for i := 0 to n
      invariant results == BatchResults(items, i)
      invariant trace == IntendedTrace(items, c, i)
    {
      var g := GenerateItem(env, c, false, i);
      BatchStep(items, c, i);
      IntendedStep(items, c, i);
      assert g == items(i);
      var pause := if i < count - 1 && delay > 0 then [Sleep(delay * 1000)] else [];
      var done := if g.result.Some? then [ItemComplete(i, g.result)] else [];
      if g.result.Some? {
        results := results + [g.result.value];
      } else {
        assert results + [] == results;
      }
      assert pause == Pause(c, i) && done == CompletionReport(i, items(i).result);
      trace := trace + ItemEvents(i, g.events) + done + [Progress(i, count)] + pause;
    }
  }

  lemma {:induction false} IntendedStep(items: nat -> Generation, c: BatchConfig, i: nat)
    ensures IntendedTrace(items, c, i + 1) == IntendedTrace(items, c, i) + ItemEvents(i, items(i).events)
      + CompletionReport(i, items(i).result) + [Progress(i, Count(c))] + Pause(c, i)
  {
  }

  /** With the completion report moved after the result, an item reports completion exactly
      when it has a result, and a failed generation is never reported complete. */
  lemma {:induction false} IntendedCompletions(items: nat -> Generation, c: BatchConfig, n: nat, k: nat)
    requires k < |IntendedTrace(items, c, n)| && IntendedTrace(items, c, n)[k].ItemComplete?
    ensures IntendedTrace(items, c, n)[k].index < n
    ensures IntendedTrace(items, c, n)[k].result == items(IntendedTrace(items, c, n)[k].index).result
    ensures IntendedTrace(items, c, n)[k].result.Some?
    decreases n
  {
    var before := IntendedTrace(items, c, n - 1);
    var es := ItemEvents(n - 1, items(n - 1).events);
    var done := CompletionReport(n - 1, items(n - 1).result);
    var upTo := before + es + done;
    var rest := [Progress(n - 1, Count(c))] + Pause(c, n - 1);
    assert IntendedTrace(items, c, n) == upTo + rest;
    if k >= |upTo| {
      assert false;
    } else if k < |before| {
      assert IntendedTrace(items, c, n)[k] == before[k];
      IntendedCompletions(items, c, n - 1, k);
    } else if k < |before| + |es| {
      assert false;
    } else {
      assert IntendedTrace(items, c, n)[k] == done[0] == ItemComplete(n - 1, items(n - 1).result);
    }
  }

  /** Every item that gives a result reports it as complete, under its own index. */
  lemma {:induction false} IntendedReportsEveryResult(items: nat -> Generation, c: BatchConfig, n: nat, i: nat)
    requires i < n && items(i).result.Some?
    ensures ItemComplete(i, items(i).result) in IntendedTrace(items, c, n)
    decreases n
  {
    var before := IntendedTrace(items, c, n - 1);
    var es := ItemEvents(n - 1, items(n - 1).events);
    var done := CompletionReport(n - 1, items(n - 1).result);
    var rest := [Progress(n - 1, Count(c))] + Pause(c, n - 1);
    assert IntendedTrace(items, c, n) == before + es + done + rest;
    if i < n - 1 {
      IntendedReportsEveryResult(items, c, n - 1, i);
    } else {
      assert done[0] == ItemComplete(i, items(i).result);
      assert IntendedTrace(items, c, n)[|before| + |es|] == done[0];
    }
  }

  /** The progress reports and pauses of a trace, in order. */
  function Schedule(trace: seq<BatchEvent>): seq<BatchEvent>
    decreases |trace|
  {
    if |trace| == 0 then []
    else
      var e := trace[|trace| - 1];
      Schedule(trace[..|trace| - 1]) + (if e.Progress? || e.Sleep? then [e] else [])
  }

  lemma {:induction false} ScheduleAppend(a: seq<BatchEvent>, b: seq<BatchEvent>)
    ensures Schedule(a + b) == Schedule(a) + Schedule(b)
    decreases |b|
  {
    if |b| == 0 {
      assert a + b == a;
    } else {
      var b' := b[..|b| - 1];
      assert (a + b)[..|a + b| - 1] == a + b';
      ScheduleAppend(a, b');
    }
  }

  lemma {:induction false} ScheduleOfNoPacing(es: seq<BatchEvent>)
    requires forall k :: 0 <= k < |es| ==> es[k].ItemUpdate? || es[k].ItemError?
    ensures Schedule(es) == []
    decreases |es|
  {
    if |es| > 0 {
      ScheduleOfNoPacing(es[..|es| - 1]);
    }
  }

  lemma {:induction false} ScheduleOfPacing(es: seq<BatchEvent>)
    requires forall k :: 0 <= k < |es| ==> es[k].Progress? || es[k].Sleep?
    ensures Schedule(es) == es
    decreases |es|
  {
    if |es| > 0 {
      ScheduleOfPacing(es[..|es| - 1]);
    }
  }

  lemma {:induction false} ScheduleStep(before: seq<BatchEvent>, es: seq<BatchEvent>, p: seq<BatchEvent>, q: seq<BatchEvent>)
    requires Schedule(es) == [] && Schedule(p) == p && Schedule(q) == q
    ensures Schedule(before + es + p + q) == Schedule(before) + p + q
  {
    ScheduleAppend(before + es + p, q);
    ScheduleAppend(before + es, p);
    ScheduleAppend(before, es);
    assert Schedule(before) + [] == Schedule(before);
  }

  /** The schedule the loop keeps whatever the requests do: a progress report after each item,
      then, before every item but the last, a pause of `delay` seconds when `delay` is positive. */
  function Pacing(c: BatchConfig, n: nat): seq<BatchEvent>
    decreases n
  {
    if n == 0 then [] else Pacing(c, n - 1) + [Progress(n - 1, Count(c))] + Pause(c, n - 1)
  }

  /** One item's failure never stops the batch: whatever each item does, the progress reports
      and pauses are those of `Pacing`. */
  lemma {:induction false} BatchSchedule(items: nat -> Generation, c: BatchConfig, n: nat)
    ensures Schedule(BatchTrace(items, c, n)) == Pacing(c, n)
    decreases n
  {
    if n > 0 {
      BatchSchedule(items, c, n - 1);
      BatchScheduleStep(items, c, n);
    }
  }

  lemma {:induction false} BatchScheduleStep(items: nat -> Generation, c: BatchConfig, n: nat)
    requires n > 0
    ensures Schedule(BatchTrace(items, c, n)) == Schedule(BatchTrace(items, c, n - 1)) + [Progress(n - 1, Count(c))] + Pause(c, n - 1)
  {
    ScheduleOfNoPacing(ItemEvents(n - 1, items(n - 1).events));
    ScheduleOfPacing([Progress(n - 1, Count(c))]);
    ScheduleOfPacing(Pause(c, n - 1));
    ScheduleStep(BatchTrace(items, c, n - 1), ItemEvents(n - 1, items(n - 1).events),
      [Progress(n - 1, Count(c))], Pause(c, n - 1));
  }

  /** The progress reports of a whole batch number the items from 0 on, each with the total;
      with a positive delay there is one pause fewer than items. */
  lemma {:induction false} PacingSpec(c: BatchConfig, n: nat)
    requires n <= Iterations(c)
    ensures |Pacing(c, n)| == if Delay(c) > 0 && n > 0 then 2 * n - (if n == Count(c) then 1 else 0) else n
    decreases n
  {
    if n > 0 {
      PacingSpec(c, n - 1);
    }
  }

  /** `delayBetweenRequests`, which the interface sets, plays no part: the loop reads `delay`. */
  lemma {:induction false} DelayBetweenRequestsIgnored(c: BatchConfig, d: Option<int>)
    ensures Pacing(c.(delayBetweenRequests := d), Iterations(c)) == Pacing(c, Iterations(c))
    ensures Iterations(c.(delayBetweenRequests := d)) == Iterations(c)
  {
    PacingUnchanged(c, c.(delayBetweenRequests := d), Iterations(c));
  }

  lemma {:induction false} PacingUnchanged(c: BatchConfig, c': BatchConfig, n: nat)
    requires c.count == c'.count && c.delay == c'.delay
    ensures Pacing(c, n) == Pacing(c', n)
    decreases n
  {
    if n > 0 {
      PacingUnchanged(c, c', n - 1);
    }
  }

  /** A batch whose configuration gives no delay pauses a second between items; a count of 0
      or none gives three items. */
  lemma {:induction false} BatchDefaults(c: BatchConfig)
    ensures c.count.None? || c.count == Some(0) ==> Iterations(c) == 3
    ensures c.delay.None? || c.delay == Some(0) ==> Delay(c) == 1
    ensures Iterations(c) > 1 && Delay(c) > 0 ==> Pacing(c, 2)[1] == Sleep(Delay(c) * 1000)
  {
  }
}
