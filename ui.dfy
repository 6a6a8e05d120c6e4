/** The generation page's controller (`UI`): the dimension check boxes and the dimensions they
    select, the vectors drawn from them, the enabled state of the two generate buttons, the
    single and the batch generation handlers with the batch progress bar, and the debug panel.
    The DOM is reduced to the values these handlers read and write; whether an API key is set,
    the text of the clock and the random draws are parameters. */
module Ui {
  import opened Wrappers
  import opened Text
  import opened Assoc
  import opened Seqs
  import opened InfoSpace
  import opened Records
  import opened AiService
  import opened Completion
  import Indienstein
  import Storage

  // Dimension check boxes

  /** A check box of the dimension list: its element id and whether it is checked. */
  datatype CheckBox = CheckBox(id: string, checked: bool)

  /** `setupDimensionsList` gives the box of dimension `d` the id `check_<d>`. */
  const CheckPrefix := "check_"

  /** The ids `updateSelectedDimensions` collects: each checked box's id with the first
      `check_` in it replaced by nothing, in document order. */
  function CheckedIds(boxes: seq<CheckBox>): seq<string>
    decreases |boxes|
  {
    if |boxes| == 0 then []
    else
      var b := boxes[|boxes| - 1];
      CheckedIds(boxes[..|boxes| - 1]) + if b.checked then [ReplaceFirst(b.id, CheckPrefix, "")] else []
  }

  function IsChecked(b: CheckBox): bool {
    b.checked
  }

  predicate Prefixed(b: CheckBox) {
    |b.id| >= |CheckPrefix| && b.id[..|CheckPrefix|] == CheckPrefix
  }

  /** Every box's id starts with `check_`. */
  predicate AllPrefixed(boxes: seq<CheckBox>) {
    forall i :: 0 <= i < |boxes| ==> Prefixed(boxes[i])
  }

  /** What follows `check_` in each box's id. */
  function DimensionsOf(boxes: seq<CheckBox>): (ds: seq<string>)
    requires AllPrefixed(boxes)
    ensures |ds| == |boxes|
  {
    seq(|boxes|, i requires 0 <= i < |boxes| => boxes[i].id[|CheckPrefix|..])
  }

  /** On boxes whose ids all start with `check_`, the selected dimensions are exactly the checked
      boxes, in document order, each with that prefix removed (and only that prefix, whatever
      the rest of its id holds). */
  lemma {:induction false} CheckedIdsSpec(boxes: seq<CheckBox>)
    requires AllPrefixed(boxes)
    ensures CheckedIds(boxes) == DimensionsOf(Filter(boxes, IsChecked))
    decreases |boxes|
  {
    if |boxes| > 0 {
      var init, b := boxes[..|boxes| - 1], boxes[|boxes| - 1];
      assert boxes == init + [b];
      assert AllPrefixed(init);
      CheckedIdsSpec(init);
      FilterAppend(init, [b], IsChecked);
      FilteredPrefixed(boxes);
      var rest := b.id[|CheckPrefix|..];
      assert b.id == CheckPrefix + rest;
      ReplaceFirstPrefix(CheckPrefix, rest);
      var f, g := Filter(init, IsChecked), Filter([b], IsChecked);
      assert Filter([b][1..], IsChecked) == [];
      DimensionsOfAppend(f, g);
    }
  }

  lemma {:induction false} DimensionsOfAppend(f: seq<CheckBox>, g: seq<CheckBox>)
    requires AllPrefixed(f) && AllPrefixed(g)
    ensures AllPrefixed(f + g)
    ensures DimensionsOf(f + g) == DimensionsOf(f) + DimensionsOf(g)
  {
    assert AllPrefixed(f + g) by {
      forall i | 0 <= i < |f + g| ensures Prefixed((f + g)[i]) {
        if i < |f| {
          assert (f + g)[i] == f[i];
        } else {
          assert (f + g)[i] == g[i - |f|];
        }
      }
    }
    var l, r := DimensionsOf(f + g), DimensionsOf(f) + DimensionsOf(g);
    forall i | 0 <= i < |l| ensures l[i] == r[i] {
      if i < |f| {
        assert (f + g)[i] == f[i];
      } else {
        assert (f + g)[i] == g[i - |f|];
      }
    }
  }

  lemma {:induction false} FilteredPrefixed(boxes: seq<CheckBox>)
    requires AllPrefixed(boxes)
    ensures AllPrefixed(Filter(boxes, IsChecked))
  {
    var r := Filter(boxes, IsChecked);
    forall i | 0 <= i < |r| ensures Prefixed(r[i]) {
      assert r[i] in boxes;
      var j :| 0 <= j < |boxes| && boxes[j] == r[i];
    }
  }

  /** The boxes of dimensions `ids`, all checked or all unchecked. */
  function BoxesFor(ids: seq<string>, checked: bool): (boxes: seq<CheckBox>)
    ensures |boxes| == |ids|
  {
    seq(|ids|, i requires 0 <= i < |ids| => CheckBox(CheckPrefix + ids[i], checked))
  }

  lemma {:induction false} BoxesForPrefixed(ids: seq<string>, checked: bool)
    ensures AllPrefixed(BoxesFor(ids, checked))
    ensures forall i :: 0 <= i < |ids| ==> BoxesFor(ids, checked)[i].id[|CheckPrefix|..] == ids[i]
  {
    var boxes := BoxesFor(ids, checked);
    forall i | 0 <= i < |ids|
      ensures Prefixed(boxes[i]) && boxes[i].id[|CheckPrefix|..] == ids[i]
    {
      assert boxes[i].id == CheckPrefix + ids[i];
    }
  }

  /** The boxes with every `checked` property set to `checked`, as the loops of
      `selectAllDimensions` and `deselectAllDimensions` leave them. */
  function WithAll(boxes: seq<CheckBox>, checked: bool): (r: seq<CheckBox>)
    ensures |r| == |boxes|
  {
    seq(|boxes|, i requires 0 <= i < |boxes| => boxes[i].(checked := checked))
  }

  /** With every box checked the selection is every box's dimension, in document order. */
  lemma {:induction false} AllCheckedSelectsAll(boxes: seq<CheckBox>)
    requires AllPrefixed(boxes)
    ensures AllPrefixed(WithAll(boxes, true))
    ensures CheckedIds(WithAll(boxes, true)) == DimensionsOf(boxes)
  {
    var on := WithAll(boxes, true);
    assert AllPrefixed(on) by {
      forall i | 0 <= i < |on| ensures Prefixed(on[i]) {
        assert on[i].id == boxes[i].id;
      }
    }
    CheckedIdsSpec(on);
    FilterKeepsAll(on, IsChecked);
    assert DimensionsOf(on) == DimensionsOf(boxes);
  }

  /** With every box checked the selection is every dimension of the list, in list order. */
  lemma {:induction false} AllChecked(ids: seq<string>)
    ensures CheckedIds(BoxesFor(ids, true)) == ids
  {
    var off := BoxesFor(ids, false);
    BoxesForPrefixed(ids, false);
    AllCheckedSelectsAll(off);
    assert WithAll(off, true) == BoxesFor(ids, true);
    assert DimensionsOf(off) == ids;
  }

  /** With no box checked nothing is selected, whatever the ids. */
  lemma {:induction false} UncheckedSelectsNothing(boxes: seq<CheckBox>)
    ensures CheckedIds(WithAll(boxes, false)) == []
    decreases |boxes|
  {
    if |boxes| > 0 {
      var init := boxes[..|boxes| - 1];
      assert WithAll(boxes, false)[..|boxes| - 1] == WithAll(init, false);
      UncheckedSelectsNothing(init);
    }
  }

  // The debug panel

  /** A line of the debug panel: its colour class and its text. */
  datatype DebugEntry = DebugEntry(colorClass: string, text: string)

  /** What a handler asks the panel to show: a message and its type (`log`, `warn`, `error`). */
  datatype Note = Note(message: string, kind: string)

  /** The colour of each type; any other type is muted. */
  function ColorClass(kind: string): string {
    if kind == "log" then "text-primary"
    else if kind == "warn" then "text-warning"
    else if kind == "error" then "text-danger"
    else "text-muted"
  }

  /** The entry `addDebugInfo(message, type)` creates when the clock reads `time`. */
  function EntryOf(n: Note, time: string): DebugEntry {
    DebugEntry(ColorClass(n.kind), "[" + time + "] " + n.message)
  }

  /** An entry carrying the class `text-muted`: the placeholder, or an entry of unknown type. */
  predicate Muted(e: DebugEntry) {
    e.colorClass == "text-muted"
  }

  const PlaceholderText := "调试信息和错误日志会显示在这里..."
  const Placeholder := DebugEntry("text-muted", PlaceholderText)
  const MaxEntries := 100

  /** The panel before the new entry is appended: emptied when its only child is muted. */
  function Cleared(log: seq<DebugEntry>): seq<DebugEntry> {
    if |log| == 1 && Muted(log[0]) then [] else log
  }

  /** The newest `MaxEntries` entries. */
  function Bounded(log: seq<DebugEntry>): seq<DebugEntry> {
    if |log| > MaxEntries then log[|log| - MaxEntries..] else log
  }

  /** The panel after `addDebugInfo` with entry `e`. */
  function Added(log: seq<DebugEntry>, e: DebugEntry): seq<DebugEntry> {
    Bounded(Cleared(log) + [e])
  }

  /** The panel never holds more than `MaxEntries` entries; the new entry is the last one; what
      stays are the newest entries, in order; a lone placeholder is replaced by the new entry,
      and a panel with room for it simply grows by it. */
  lemma {:induction false} AddedSpec(log: seq<DebugEntry>, e: DebugEntry)
    ensures 0 < |Added(log, e)| <= MaxEntries
    ensures Added(log, e)[|Added(log, e)| - 1] == e
    ensures var full := Cleared(log) + [e]; Added(log, e) == full[|full| - |Added(log, e)|..]
    ensures |Cleared(log)| >= MaxEntries ==> |Added(log, e)| == MaxEntries
    ensures log == [Placeholder] ==> Added(log, e) == [e]
    ensures |log| < MaxEntries && !(|log| == 1 && Muted(log[0])) ==> Added(log, e) == log + [e]
  {
    var full := Cleared(log) + [e];
    if |full| <= MaxEntries {
      assert full[0..] == full;
    }
  }

  /** The panel after adding the entries of `notes` one after the other. */
  function Logged(log: seq<DebugEntry>, notes: seq<Note>, time: string): seq<DebugEntry>
    decreases |notes|
  {
    if |notes| == 0 then log
    else Added(Logged(log, notes[..|notes| - 1], time), EntryOf(notes[|notes| - 1], time))
  }

  /** However many entries are added, the panel stays within `MaxEntries`, and the last note
      added is the last entry shown. */
  lemma {:induction false} LoggedSpec(log: seq<DebugEntry>, notes: seq<Note>, time: string)
    requires |log| <= MaxEntries
    ensures |Logged(log, notes, time)| <= MaxEntries
    ensures |notes| > 0 ==>
      |Logged(log, notes, time)| > 0 &&
      Logged(log, notes, time)[|Logged(log, notes, time)| - 1] == EntryOf(notes[|notes| - 1], time)
  {
    if |notes| > 0 {
      AddedSpec(Logged(log, notes[..|notes| - 1], time), EntryOf(notes[|notes| - 1], time));
    }
  }

  /** `debugInfo`, the panel's element. */
  class DebugPanel {
    var entries: seq<DebugEntry>

    /** The panel as `clearDebugInfo` leaves it. */
    constructor()
      ensures entries == [Placeholder]
    {
      entries := [Placeholder];
    }

    /** `addDebugInfo(message, type)` when the clock reads `time`: the lone placeholder goes,
        the entry is appended, then the oldest entries are removed one by one while there are
        more than `MaxEntries`. */
    method AddDebugInfo(message: string, kind: string, time: string)
      modifies this
      ensures entries == Added(old(entries), EntryOf(Note(message, kind), time))
    {
      var entry := EntryOf(Note(message, kind), time);
      if |entries| == 1 && Muted(entries[0]) {
        entries := [];
      }
      ghost var full := entries + [entry];
      entries := entries + [entry];
      while |entries| > MaxEntries
        invariant |entries| <= |full| && entries == full[|full| - |entries|..]
        invariant |entries| >= MaxEntries || entries == full
        decreases |entries|
      {
        entries := entries[1..];
      }
      if |entries| == MaxEntries && |full| > MaxEntries {
        assert entries == full[|full| - MaxEntries..];
      }
    }

    /** `addDebugInfo` for each note in turn. */
    method AddAll(notes: seq<Note>, time: string)
      modifies this
      ensures entries == Logged(old(entries), notes, time)
    {
      ghost var start := entries;
      for i := 0 to |notes|
        invariant entries == Logged(start, notes[..i], time)
      {
        assert notes[..i + 1][..i] == notes[..i];
        AddDebugInfo(notes[i].message, notes[i].kind, time);
      }
      assert notes[..|notes|] == notes;
    }

    /** `clearDebugInfo()`. */
    method ClearDebugInfo()
      modifies this
      ensures entries == [Placeholder]
    {
      entries := [Placeholder];
    }
  }

  const GenerationStarted := "开始生成灵感"
  const GenerationDone := "灵感生成完成"

  /** `logApiRequest({provider, model, messageCount})`. */
  function RequestNote(provider: string, model: string, messageCount: nat): Note {
    Note("API请求 - " + provider + " (" + model + "): " + NatToString(messageCount) + "条消息", "log")
  }

  /** `logApiError(error)`. */
  function ErrorNote(error: string): Note {
    Note("API错误: " + error, "error")
  }

  /** What the page's generation callbacks log: the completion, and each reported error. */
  function CallbackNotes(events: seq<Event>): (notes: seq<Note>)
    ensures |notes| <= |events|
    decreases |events|
  {
    if |events| == 0 then []
    else
      CallbackNotes(events[..|events| - 1]) +
      match events[|events| - 1]
      case Content(_) => []
      case Complete(_) => [Note(GenerationDone, "log")]
      case Error(m) => [ErrorNote(m)]
  }

  /** What `generateInspiration` logs before its request: the start and the request itself. */
  function StartNotes(s: Settings): seq<Note> {
    [Note(GenerationStarted, "log"), RequestNote(s.provider, s.model, 1)]
  }

  /** What it logs once the request is made: the callbacks' notes and, when saving the result
      throws `saveError`, the exception. */
  function FinishNotes(g: Indienstein.Generation, saveError: Option<string>): seq<Note> {
    CallbackNotes(g.events) + if g.result.Some? && saveError.Some? then [ErrorNote("生成异常: " + saveError.value)] else []
  }

  /** Everything one generation logs. */
  function GenerationNotes(s: Settings, g: Indienstein.Generation, saveError: Option<string>): seq<Note> {
    StartNotes(s) + FinishNotes(g, saveError)
  }

  /** As written, the page saves a result through a method the storage class does not have: the
      call throws a `TypeError`, so every successful generation ends with an API error in the
      debug panel (and nothing is stored), while a save that works logs only the start, the
      request and the callbacks' notes. */
  lemma {:induction false} SuccessLoggedAsError(s: Settings, g: Indienstein.Generation, typeError: string)
    requires g.result.Some?
    ensures var notes := GenerationNotes(s, g, Some(typeError));
      notes[|notes| - 1] == ErrorNote("生成异常: " + typeError) && notes[|notes| - 1].kind == "error"
    ensures GenerationNotes(s, g, None) == StartNotes(s) + CallbackNotes(g.events)
    ensures forall k :: 0 <= k < 2 ==> GenerationNotes(s, g, None)[k].kind == "log"
  {
    assert CallbackNotes(g.events) + [] == CallbackNotes(g.events);
  }

  /** Logging two lists of notes one after the other logs their concatenation. */
  lemma {:induction false} LoggedAppend(log: seq<DebugEntry>, a: seq<Note>, b: seq<Note>, time: string)
    ensures Logged(log, a + b, time) == Logged(Logged(log, a, time), b, time)
    decreases |b|
  {
    if |b| == 0 {
      assert a + b == a;
    } else {
      var b' := b[..|b| - 1];
      assert (a + b)[..|a + b| - 1] == a + b';
      assert (a + b)[|a + b| - 1] == b[|b| - 1];
      LoggedAppend(log, a, b', time);
    }
  }

  // Batch count and progress

  /** `parseInt(countText) || 3`, `parsed` being what `parseInt` reads from the count field
      (`None` for `NaN`): `NaN` and 0 both give the default of 3, so the count is never 0. */
  function BatchCount(parsed: Option<int>): (count: int)
    ensures count != 0
    ensures parsed.None? ==> count == 3
  {
    match parsed
    case None => 3
    case Some(v) => if v == 0 then 3 else v
  }

  /** A count the field shows as a decimal number is read back as that number, except 0, which
      gives the default. */
  lemma {:induction false} BatchCountOfField(n: nat)
    ensures BatchCount(ParseInt(NatToString(n))) == if n == 0 then 3 else n
  {
    ParseIntOfNat(n);
  }

  /** `parseFloat(delayText) || 1` for the delay field, read as a whole number. */
  function BatchDelay(delay: Option<int>): int {
    if delay.None? || delay.value == 0 then 1 else delay.value
  }

  /** The configuration the page passes to the batch service. */
  function BatchConfigFor(count: Option<int>, dimensionIds: seq<string>, userPrompt: string, delay: Option<int>)
    : Indienstein.BatchConfig
  {
    Indienstein.BatchConfig(Some(BatchCount(count)), Some(dimensionIds), Some(userPrompt), None, Some(BatchDelay(delay)))
  }

  /** As written, the delay field plays no part: the page passes it as `delayBetweenRequests`,
      the service reads `delay`, so every pause between items lasts one second. */
  lemma {:induction false} DelayFieldIgnored(count: Option<int>, dimensionIds: seq<string>, userPrompt: string,
    delay: Option<int>, i: nat)
    requires i < BatchCount(count) - 1
    ensures Indienstein.Pause(BatchConfigFor(count, dimensionIds, userPrompt, delay), i) == [Indienstein.Sleep(1000)]
  {
  }

  /** The configuration with the delay under the name the service reads. */
  function BatchConfigIntended(count: Option<int>, dimensionIds: seq<string>, userPrompt: string, delay: Option<int>)
    : (c: Indienstein.BatchConfig)
    ensures c.count == Some(BatchCount(count)) && c.dimensionIds == Some(dimensionIds)
    ensures c.userPrompt == Some(userPrompt) && c.delay == Some(BatchDelay(delay))
  {
    BatchConfigFor(count, dimensionIds, userPrompt, delay).(delay := Some(BatchDelay(delay)))
  }

  /** With the delay passed as `delay`, the pauses between items last what the field says: the
      default of one second for an empty or zero field, none for a negative one. */
  lemma {:induction false} DelayFieldHonoured(count: Option<int>, dimensionIds: seq<string>, userPrompt: string,
    delay: Option<int>, i: nat)
    requires i < BatchCount(count) - 1
    ensures Indienstein.Pause(BatchConfigIntended(count, dimensionIds, userPrompt, delay), i) ==
      if BatchDelay(delay) > 0 then [Indienstein.Sleep(BatchDelay(delay) * 1000)] else []
    ensures delay.None? || delay == Some(0) ==>
      Indienstein.Pause(BatchConfigIntended(count, dimensionIds, userPrompt, delay), i) == [Indienstein.Sleep(1000)]
  {
  }

  /** `Math.round((current + 1) / total * 100)` on exact numbers: the floor of the quotient plus
      one half, for a total of either sign. */
  function Percent(current: int, total: int): int
    requires total != 0
  {
    if total > 0 then (200 * (current + 1) + total) / (2 * total)
    else -(200 * (current + 1) + total) / (-2 * total)
  }

  /** The width is the whole number nearest to `(current + 1) / total` of 100, halves rounded
      up; it lies between 0 and 100 while `current` is an index below `total`, and is exactly
      100 at the last index. */
  lemma {:induction false} PercentSpec(current: int, total: int)
    requires total > 0
    ensures var p := Percent(current, total);
      2 * p * total - total <= 200 * (current + 1) < 2 * p * total + total
    ensures 0 <= current < total ==> 0 <= Percent(current, total) <= 100
    ensures Percent(total - 1, total) == 100
  {
    var p := Percent(current, total);
    var a, d := 200 * (current + 1) + total, 2 * total;
    assert p * d <= a < p * d + d;
    assert 2 * p * total == p * d;
    if 0 <= current < total {
      assert 0 <= a;
      BelowDivisor(a, d, 101 * d);
    }
    assert 200 * total + total == 100 * (2 * total) + total;
    DivideBetween(201 * total, 2 * total, 100, total);
  }

  lemma {:induction false} BelowDivisor(a: int, d: int, b: int)
    requires 0 <= a < b && d > 0 && b == 101 * d
    ensures 0 <= a / d <= 100
  {
  }

  /** `a / d` is `q` when `a` is `q` times `d` plus a remainder below `d`. */
  lemma {:induction false} DivideBetween(a: int, d: int, q: int, r: int)
    requires d > 0 && 0 <= r < d && a == q * d + r
    ensures a / d == q
  {
    var q', r' := a / d, a % d;
    assert (q' - q) * d == r - r';
    if q' > q {
      AtLeastOnce(q' - q, d);
    } else if q' < q {
      AtLeastOnce(q - q', d);
    }
  }

  lemma {:induction false} AtLeastOnce(x: int, d: int)
    requires x >= 1 && d > 0
    ensures x * d >= d
  {
  }

  /** A later item never shows less progress. */
  lemma {:induction false} PercentMonotone(current: int, later: int, total: int)
    requires total > 0 && current <= later
    ensures Percent(current, total) <= Percent(later, total)
  {
    var a, b, d := 200 * (current + 1) + total, 200 * (later + 1) + total, 2 * total;
    var q, q' := a / d, b / d;
    assert q * d <= a && b < q' * d + d;
    if q > q' {
      AtLeastOnce(q - q', d);
    }
  }

  /** The index and total of the last progress report of `trace` that the bar can show (a total
      of 0 gives an infinite width, which the style ignores). */
  function LastReport(trace: seq<Indienstein.BatchEvent>): (r: Option<(nat, int)>)
    ensures r.Some? ==> r.value.1 != 0
    decreases |trace|
  {
    if |trace| == 0 then None
    else
      var e := trace[|trace| - 1];
      if e.Progress? && e.total != 0 then Some((e.index, e.total)) else LastReport(trace[..|trace| - 1])
  }

  /** The progress bar's width after the reports of `trace`, starting from `width`. */
  function Shown(width: int, trace: seq<Indienstein.BatchEvent>): int {
    match LastReport(trace)
    case None => width
    case Some(r) => Percent(r.0, r.1)
  }

  /** `arr[i] = r` on a JavaScript array: it grows to `i + 1` elements when shorter, the holes
      reading as `undefined`. */
  function ArraySet(rs: seq<Option<GenerationResult>>, i: nat, r: Option<GenerationResult>): seq<Option<GenerationResult>> {
    (if i < |rs| then rs else rs + seq(i + 1 - |rs|, _ => None))[i := r]
  }

  /** The array holds `r` at `i`, keeps its other elements and is `undefined` in the holes. */
  lemma {:induction false} ArraySetSpec(rs: seq<Option<GenerationResult>>, i: nat, r: Option<GenerationResult>)
    ensures |ArraySet(rs, i, r)| == if i < |rs| then |rs| else i + 1
    ensures ArraySet(rs, i, r)[i] == r
    ensures forall j :: 0 <= j < |rs| && j != i ==> ArraySet(rs, i, r)[j] == rs[j]
    ensures forall j :: |rs| <= j < i ==> ArraySet(rs, i, r)[j].None?
  {
  }

  /** `batchResults` after the completion reports of `trace`. */
  function Recorded(rs: seq<Option<GenerationResult>>, trace: seq<Indienstein.BatchEvent>): seq<Option<GenerationResult>>
    decreases |trace|
  {
    if |trace| == 0 then rs
    else
      var before := Recorded(rs, trace[..|trace| - 1]);
      match trace[|trace| - 1]
      case ItemComplete(i, r) => ArraySet(before, i, r)
      case _ => before
  }

  /** Events without a progress report. */
  predicate NoProgress(es: seq<Indienstein.BatchEvent>) {
    forall k :: 0 <= k < |es| ==> !es[k].Progress?
  }

  /** Events without a completion report. */
  predicate NoCompletion(es: seq<Indienstein.BatchEvent>) {
    forall k :: 0 <= k < |es| ==> !es[k].ItemComplete?
  }

  /** Events without a progress report leave the bar as it was. */
  lemma {:induction false} ShownSuffix(a: seq<Indienstein.BatchEvent>, es: seq<Indienstein.BatchEvent>)
    requires NoProgress(es)
    ensures LastReport(a + es) == LastReport(a)
    decreases |es|
  {
    if |es| == 0 {
      assert a + es == a;
    } else {
      var es' := es[..|es| - 1];
      assert (a + es)[..|a + es| - 1] == a + es';
      assert (a + es)[|a + es| - 1] == es[|es| - 1];
      ShownSuffix(a, es');
    }
  }

  /** Events without a completion report leave the results as they were. */
  lemma {:induction false} RecordedSuffix(rs: seq<Option<GenerationResult>>, a: seq<Indienstein.BatchEvent>,
    es: seq<Indienstein.BatchEvent>)
    requires NoCompletion(es)
    ensures Recorded(rs, a + es) == Recorded(rs, a)
    decreases |es|
  {
    if |es| == 0 {
      assert a + es == a;
    } else {
      var es' := es[..|es| - 1];
      assert (a + es)[..|a + es| - 1] == a + es';
      assert (a + es)[|a + es| - 1] == es[|es| - 1];
      RecordedSuffix(rs, a, es');
    }
  }

  /** What the page sees of the events and the pause of item `i`: neither is a progress or a
      completion report. */
  lemma {:induction false} ItemQuiet(i: nat, events: seq<Event>, c: Indienstein.BatchConfig)
    ensures NoProgress(Indienstein.ItemEvents(i, events)) && NoCompletion(Indienstein.ItemEvents(i, events))
    ensures NoProgress(Indienstein.Pause(c, i)) && NoCompletion(Indienstein.Pause(c, i))
    ensures NoCompletion([Indienstein.Progress(i, Indienstein.Count(c))])
  {
  }

  /** A progress report followed by events without reports: the bar shows that report. */
  lemma {:induction false} ReportShown(a: seq<Indienstein.BatchEvent>, i: nat, total: int, pause: seq<Indienstein.BatchEvent>)
    requires NoProgress(pause) && total != 0
    ensures LastReport(a + [Indienstein.Progress(i, total)] + pause) == Some((i, total))
  {
    var withReport := a + [Indienstein.Progress(i, total)];
    ShownSuffix(withReport, pause);
    assert withReport[..|withReport| - 1] == a;
  }

  /** A progress report followed by events without completions leaves the results alone. */
  lemma {:induction false} ReportRecorded(rs: seq<Option<GenerationResult>>, a: seq<Indienstein.BatchEvent>,
    i: nat, total: int, pause: seq<Indienstein.BatchEvent>)
    requires NoCompletion(pause)
    ensures Recorded(rs, a + [Indienstein.Progress(i, total)] + pause) == Recorded(rs, a)
  {
    var withReport := a + [Indienstein.Progress(i, total)];
    RecordedSuffix(rs, withReport, pause);
    assert withReport[..|withReport| - 1] == a;
  }

  /** In the batch as written no item reports completion: the bar ends at the last item's
      width, and the results stay as they were. */
  lemma {:induction false} WrittenBatchSeen(rs: seq<Option<GenerationResult>>,
    items: nat -> Indienstein.Generation, c: Indienstein.BatchConfig, n: nat)
    ensures n == 0 ==> LastReport(Indienstein.BatchTrace(items, c, n)).None?
    ensures n > 0 ==> LastReport(Indienstein.BatchTrace(items, c, n)) == Some((n - 1, Indienstein.Count(c)))
    ensures Recorded(rs, Indienstein.BatchTrace(items, c, n)) == rs
    decreases n
  {
    if n > 0 {
      WrittenBatchSeen(rs, items, c, n - 1);
      var before := Indienstein.BatchTrace(items, c, n - 1);
      var es := Indienstein.ItemEvents(n - 1, items(n - 1).events);
      var upTo := before + es;
      var pause := Indienstein.Pause(c, n - 1);
      assert Indienstein.BatchTrace(items, c, n) == upTo + [Indienstein.Progress(n - 1, Indienstein.Count(c))] + pause;
      ItemQuiet(n - 1, items(n - 1).events, c);
      ReportShown(upTo, n - 1, Indienstein.Count(c), pause);
      ReportRecorded(rs, upTo, n - 1, Indienstein.Count(c), pause);
      RecordedSuffix(rs, before, es);
    }
  }

  /** One item of the corrected batch: the bar shows its report, and the results are updated
      by its completion report, if it has a result. */
  lemma {:induction false} IntendedItemSeen(items: nat -> Indienstein.Generation, c: Indienstein.BatchConfig, i: nat)
    ensures LastReport(Indienstein.IntendedTrace(items, c, i + 1)) == Some((i, Indienstein.Count(c)))
    ensures Recorded([], Indienstein.IntendedTrace(items, c, i + 1)) ==
      if items(i).result.Some? then ArraySet(Recorded([], Indienstein.IntendedTrace(items, c, i)), i, items(i).result)
      else Recorded([], Indienstein.IntendedTrace(items, c, i))
  {
    var before := Indienstein.IntendedTrace(items, c, i);
    var es := Indienstein.ItemEvents(i, items(i).events);
    var done := Indienstein.CompletionReport(i, items(i).result);
    var upTo := before + es + done;
    var pause := Indienstein.Pause(c, i);
    assert Indienstein.IntendedTrace(items, c, i + 1) == upTo + [Indienstein.Progress(i, Indienstein.Count(c))] + pause;
    ItemQuiet(i, items(i).events, c);
    ReportShown(upTo, i, Indienstein.Count(c), pause);
    ReportRecorded([], upTo, i, Indienstein.Count(c), pause);
    RecordedSuffix([], before, es);
    if items(i).result.Some? {
      assert upTo[..|upTo| - 1] == before + es;
    } else {
      assert upTo == before + es;
    }
  }

  /** In the corrected batch the bar ends at the last item's width, and every item with a
      result records it under its own index while only such items record anything: reading
      `batchResults[k]`, holes and the end of the array giving `undefined`, yields item `k`'s
      result. */
  lemma {:induction false} IntendedBatchSeen(items: nat -> Indienstein.Generation, c: Indienstein.BatchConfig, n: nat)
    ensures n == 0 ==> LastReport(Indienstein.IntendedTrace(items, c, n)).None?
    ensures n > 0 ==> LastReport(Indienstein.IntendedTrace(items, c, n)) == Some((n - 1, Indienstein.Count(c)))
    ensures RecordsResults(Recorded([], Indienstein.IntendedTrace(items, c, n)), items, n)
    decreases n
  {
    if n > 0 {
      IntendedBatchSeen(items, c, n - 1);
      IntendedItemSeen(items, c, n - 1);
      RecordsNext(Recorded([], Indienstein.IntendedTrace(items, c, n - 1)), items, n - 1);
    }
  }

  /** `rs`, read as a JavaScript array, holds the result of each of the first `n` items. */
  predicate RecordsResults(rs: seq<Option<GenerationResult>>, items: nat -> Indienstein.Generation, n: nat) {
    && |rs| <= n
    && (forall k :: 0 <= k < |rs| ==> rs[k] == items(k).result)
    && (forall k :: |rs| <= k < n ==> items(k).result.None?)
  }

  /** Recording item `i`'s result, if it has one, extends the records to the first `i + 1`
      items. */
  lemma {:induction false} RecordsNext(rs: seq<Option<GenerationResult>>, items: nat -> Indienstein.Generation, i: nat)
    requires RecordsResults(rs, items, i)
    ensures RecordsResults(if items(i).result.Some? then ArraySet(rs, i, items(i).result) else rs, items, i + 1)
  {
    if items(i).result.Some? {
      ArraySetSpec(rs, i, items(i).result);
    }
  }

  /** The service's results as the array elements the storage service reads. */
  function Present(results: seq<GenerationResult>): (r: seq<Option<GenerationResult>>)
    ensures |r| == |results|
  {
    seq(|results|, k requires 0 <= k < |results| => Some(results[k]))
  }

  /** A trace whose last report is of the last of `total` items, or that has no report when
      there is no item, leaves a bar that started empty full when `total` is positive and
      empty otherwise. */
  lemma {:induction false} FullAtTheEnd(trace: seq<Indienstein.BatchEvent>, n: nat, total: int)
    requires n == if total > 0 then total else 0
    requires n == 0 ==> LastReport(trace).None?
    requires n > 0 ==> LastReport(trace) == Some((n - 1, total))
    ensures Shown(0, trace) == if total > 0 then 100 else 0
  {
    if n > 0 {
      PercentSpec(n - 1, total);
    }
  }

  /** What the page sees of a batch as written, started from an empty bar and an empty
      results array: no result, none recorded, and a bar that ends full exactly when the count
      is positive. */
  lemma {:induction false} WrittenBatchOutcome(env: Indienstein.Env, c: Indienstein.BatchConfig)
    ensures Indienstein.BatchResults(Indienstein.Items(env, c, true), Indienstein.Iterations(c)) == []
    ensures var trace := Indienstein.BatchTrace(Indienstein.Items(env, c, true), c, Indienstein.Iterations(c));
      && Recorded([], trace) == []
      && Shown(0, trace) == if Indienstein.Count(c) > 0 then 100 else 0
  {
    var n, total := Indienstein.Iterations(c), Indienstein.Count(c);
    var trace := Indienstein.BatchTrace(Indienstein.Items(env, c, true), c, n);
    Indienstein.BatchWithCompletionCallbackIsEmpty(env, c, n);
    WrittenBatchSeen([], Indienstein.Items(env, c, true), c, n);
    FullAtTheEnd(trace, n, total);
  }

  /** What the page sees of the corrected batch, started from an empty bar and an empty
      results array: the bar ends as in the batch as written, and the array holds each item's
      result under its index. */
  lemma {:induction false} IntendedBatchOutcome(env: Indienstein.Env, c: Indienstein.BatchConfig)
    ensures var items := Indienstein.Items(env, c, false);
      var trace := Indienstein.IntendedTrace(items, c, Indienstein.Iterations(c));
      && RecordsResults(Recorded([], trace), items, Indienstein.Iterations(c))
      && Shown(0, trace) == if Indienstein.Count(c) > 0 then 100 else 0
  {
    var n, total := Indienstein.Iterations(c), Indienstein.Count(c);
    var trace := Indienstein.IntendedTrace(Indienstein.Items(env, c, false), c, n);
    IntendedBatchSeen(Indienstein.Items(env, c, false), c, n);
    FullAtTheEnd(trace, n, total);
  }

  /** The values of the elements of a JavaScript array that are not `undefined`, in index
      order. */
  function Defined(rs: seq<Option<GenerationResult>>): (vs: seq<GenerationResult>)
    ensures |vs| <= |rs|
    decreases |rs|
  {
    if |rs| == 0 then []
    else Defined(rs[..|rs| - 1]) + if rs[|rs| - 1].Some? then [rs[|rs| - 1].value] else []
  }

  /** An array holding each item's result under its index holds, read in index order, the
      results the batch returns. */
  lemma {:induction false} RecordsDefined(rs: seq<Option<GenerationResult>>, items: nat -> Indienstein.Generation, n: nat)
    requires RecordsResults(rs, items, n)
    ensures Defined(rs) == Indienstein.BatchResults(items, n)
    decreases n
  {
    if n > 0 {
      if |rs| == n {
        var init := rs[..n - 1];
        assert RecordsResults(init, items, n - 1);
        RecordsDefined(init, items, n - 1);
        assert rs[n - 1] == items(n - 1).result;
      } else {
        assert items(n - 1).result.None?;
        assert RecordsResults(rs, items, n - 1);
        RecordsDefined(rs, items, n - 1);
      }
    }
  }

  /** The service's batch as the page runs it, passing all four callbacks, and what those
      callbacks see from an empty bar and an empty results array: no result, nothing
      recorded, and a bar that ends full exactly when the count is positive. */
  method RunPageBatch(env: Indienstein.Env, c: Indienstein.BatchConfig)
    returns (results: seq<GenerationResult>, trace: seq<Indienstein.BatchEvent>)
    ensures results == [] && Recorded([], trace) == []
    ensures Shown(0, trace) == if Indienstein.Count(c) > 0 then 100 else 0
  {
    results, trace := Indienstein.GenerateBatchInspiration(env, Some(c), true);
    WrittenBatchOutcome(env, c);
  }

  /** The corrected batch as the page runs it: the results array the callbacks fill holds,
      in index order, exactly the results the service returns, and the bar ends as in the
      batch as written. */
  method RunPageBatchIntended(env: Indienstein.Env, c: Indienstein.BatchConfig)
    returns (results: seq<GenerationResult>, trace: seq<Indienstein.BatchEvent>)
    ensures Defined(Recorded([], trace)) == results
    ensures Shown(0, trace) == if Indienstein.Count(c) > 0 then 100 else 0
  {
    results, trace := Indienstein.GenerateBatchInspirationIntended(env, Some(c));
    IntendedBatchOutcome(env, c);
    RecordsDefined(Recorded([], trace), Indienstein.Items(env, c, false), Indienstein.Iterations(c));
  }

  // The page

  /** The generation page: `UI.state`, the check boxes of the dimension list, the `disabled`
      properties of the generate and the batch buttons, the width of the batch progress bar
      and the debug panel. */
  class Page {
    var isGenerating: bool
    var isBatchGenerating: bool
    var checkBoxes: seq<CheckBox>
    var selectedDimensions: seq<string>
    var currentSelectedVectors: Selection
    var currentResult: Option<GenerationResult>
    var batchResults: seq<Option<GenerationResult>>
    var generateDisabled: bool
    var batchDisabled: bool
    var progress: int
    const debug: DebugPanel

    /** The buttons as `updateGenerateButton` sets them: generating needs vectors and no
        generation running, a batch needs a selected dimension and no batch running. */
    predicate ButtonsMatch()
      reads this
    {
      && generateDisabled == (isGenerating || |currentSelectedVectors| == 0)
      && batchDisabled == (isBatchGenerating || |selectedDimensions| == 0)
    }

    /** The page after `init` has built the dimension list of `t`: every dimension checked and
        selected, no vectors drawn, nothing generated. */
    constructor(t: Table, debug: DebugPanel)
      ensures this.debug == debug
      ensures checkBoxes == BoxesFor(Indienstein.DimensionIds(t), true)
      ensures selectedDimensions == Indienstein.DimensionIds(t)
      ensures !isGenerating && !isBatchGenerating && currentSelectedVectors == [] && currentResult.None?
      ensures batchResults == [] && ButtonsMatch()
    {
      this.debug := debug;
      isGenerating, isBatchGenerating := false, false;
      checkBoxes, selectedDimensions := [], [];
      currentSelectedVectors, currentResult, batchResults := [], None, [];
      generateDisabled, batchDisabled, progress := true, true, 0;
      new;
      SetupDimensionsList(t);
    }

    /** `updateGenerateButton()`. */
    method UpdateGenerateButton()
      modifies this
      ensures ButtonsMatch()
      ensures isGenerating == old(isGenerating) && isBatchGenerating == old(isBatchGenerating)
      ensures checkBoxes == old(checkBoxes) && selectedDimensions == old(selectedDimensions)
      ensures currentSelectedVectors == old(currentSelectedVectors) && currentResult == old(currentResult)
      ensures batchResults == old(batchResults) && progress == old(progress)
    {
      var hasSelectedVectors := |currentSelectedVectors| > 0;
      var hasSelectedDimensions := |selectedDimensions| > 0;
      generateDisabled := isGenerating || !hasSelectedVectors;
      batchDisabled := isBatchGenerating || !hasSelectedDimensions;
    }

    /** `updateSelectedDimensions()`: the ids of the checked boxes become the selection, and
        the buttons follow. On boxes built by the list, the selection is the checked boxes'
        dimensions in document order. */
    method UpdateSelectedDimensions()
      modifies this
      ensures selectedDimensions == CheckedIds(checkBoxes)
      ensures AllPrefixed(checkBoxes) ==> selectedDimensions == DimensionsOf(Filter(checkBoxes, IsChecked))
      ensures ButtonsMatch()
      ensures isGenerating == old(isGenerating) && isBatchGenerating == old(isBatchGenerating)
      ensures checkBoxes == old(checkBoxes)
      ensures currentSelectedVectors == old(currentSelectedVectors) && currentResult == old(currentResult)
      ensures batchResults == old(batchResults) && progress == old(progress)
    {
      var selected: seq<string> := [];
      for i := 0 to |checkBoxes|
        invariant selected == CheckedIds(checkBoxes[..i])
      {
        assert checkBoxes[..i + 1][..i] == checkBoxes[..i];
        if checkBoxes[i].checked {
          var dimensionId := ReplaceFirst(checkBoxes[i].id, CheckPrefix, "");
          selected := selected + [dimensionId];
        }
      }
      assert checkBoxes[..|checkBoxes|] == checkBoxes;
      if AllPrefixed(checkBoxes) {
        CheckedIdsSpec(checkBoxes);
      }
      selectedDimensions := selected;
      UpdateGenerateButton();
    }

    /** Sets every box's `checked` property, then updates the selection. */
    method CheckAll(checked: bool)
      modifies this
      ensures checkBoxes == WithAll(old(checkBoxes), checked)
      ensures selectedDimensions == CheckedIds(checkBoxes) && ButtonsMatch()
      ensures isGenerating == old(isGenerating) && isBatchGenerating == old(isBatchGenerating)
      ensures currentSelectedVectors == old(currentSelectedVectors) && currentResult == old(currentResult)
      ensures batchResults == old(batchResults) && progress == old(progress)
    {
      for i := 0 to |checkBoxes|
        invariant |checkBoxes| == |old(checkBoxes)|
        invariant checkBoxes[..i] == WithAll(old(checkBoxes), checked)[..i]
        invariant checkBoxes[i..] == old(checkBoxes)[i..]
        invariant isGenerating == old(isGenerating) && isBatchGenerating == old(isBatchGenerating)
        invariant currentSelectedVectors == old(currentSelectedVectors) && currentResult == old(currentResult)
        invariant batchResults == old(batchResults) && progress == old(progress)
      {
        checkBoxes := checkBoxes[i := checkBoxes[i].(checked := checked)];
      }
      assert checkBoxes == checkBoxes[..|checkBoxes|];
      UpdateSelectedDimensions();
    }

    /** `selectAllDimensions()`: every box of the list checked, so every dimension selected. */
    method SelectAllDimensions()
      modifies this
      ensures checkBoxes == WithAll(old(checkBoxes), true)
      ensures AllPrefixed(old(checkBoxes)) ==> selectedDimensions == DimensionsOf(old(checkBoxes))
      ensures ButtonsMatch()
      ensures isGenerating == old(isGenerating) && isBatchGenerating == old(isBatchGenerating)
      ensures currentSelectedVectors == old(currentSelectedVectors) && currentResult == old(currentResult)
      ensures batchResults == old(batchResults) && progress == old(progress)
    {
      if AllPrefixed(checkBoxes) {
        AllCheckedSelectsAll(checkBoxes);
      }
      CheckAll(true);
    }

    /** `deselectAllDimensions()`: nothing selected, so the batch button is disabled. */
    method DeselectAllDimensions()
      modifies this
      ensures checkBoxes == WithAll(old(checkBoxes), false)
      ensures selectedDimensions == [] && batchDisabled && ButtonsMatch()
      ensures isGenerating == old(isGenerating) && isBatchGenerating == old(isBatchGenerating)
      ensures currentSelectedVectors == old(currentSelectedVectors) && currentResult == old(currentResult)
      ensures batchResults == old(batchResults) && progress == old(progress)
    {
      UncheckedSelectsNothing(checkBoxes);
      CheckAll(false);
    }

    /** A click on the row of box `i`: its `checked` property flips and the selection follows. */
    method ToggleDimension(i: nat)
      requires i < |checkBoxes|
      modifies this
      ensures checkBoxes == old(checkBoxes)[i := old(checkBoxes)[i].(checked := !old(checkBoxes)[i].checked)]
      ensures selectedDimensions == CheckedIds(checkBoxes) && ButtonsMatch()
      ensures isGenerating == old(isGenerating) && isBatchGenerating == old(isBatchGenerating)
      ensures currentSelectedVectors == old(currentSelectedVectors) && currentResult == old(currentResult)
      ensures batchResults == old(batchResults) && progress == old(progress)
    {
      checkBoxes := checkBoxes[i := checkBoxes[i].(checked := !checkBoxes[i].checked)];
      UpdateSelectedDimensions();
    }

    /** `setupDimensionsList()` over the dimensions of `t`: one unchecked box `check_<id>` per
        dimension, in table order, then all of them selected. */
    method SetupDimensionsList(t: Table)
      modifies this
      ensures checkBoxes == BoxesFor(Indienstein.DimensionIds(t), true)
      ensures selectedDimensions == Indienstein.DimensionIds(t) && ButtonsMatch()
      ensures isGenerating == old(isGenerating) && isBatchGenerating == old(isBatchGenerating)
      ensures currentSelectedVectors == old(currentSelectedVectors) && currentResult == old(currentResult)
      ensures batchResults == old(batchResults) && progress == old(progress)
    {
      var ids := Indienstein.DimensionIds(t);
      checkBoxes := BoxesFor(ids, false);
      assert WithAll(checkBoxes, true) == BoxesFor(ids, true);
      AllChecked(ids);
      CheckAll(true);
    }

    /** `randomSelectVectors()`: with no dimension selected it only warns (`warned`), and the
        vectors stay; otherwise one random vector is drawn for each selected dimension that has
        vectors, and the generate button follows. */
    method RandomSelectVectors(t: Table, rand: nat -> Unit) returns (warned: bool)
      modifies this
      ensures warned <==> |selectedDimensions| == 0
      ensures warned ==> currentSelectedVectors == old(currentSelectedVectors) && generateDisabled == old(generateDisabled)
      ensures !warned ==>
        && currentSelectedVectors == Indienstein.IdSelection(t, Some(selectedDimensions), rand)
        && ButtonsMatch()
      ensures isGenerating == old(isGenerating) && isBatchGenerating == old(isBatchGenerating)
      ensures checkBoxes == old(checkBoxes) && selectedDimensions == old(selectedDimensions)
      ensures currentResult == old(currentResult) && batchResults == old(batchResults) && progress == old(progress)
      ensures batchDisabled == old(batchDisabled) || ButtonsMatch()
    {
      if |selectedDimensions| == 0 {
        return true;
      }
      warned := false;
      currentSelectedVectors := Indienstein.SelectFromDimensionIds(t, Some(selectedDimensions), rand);
      UpdateGenerateButton();
    }

    /** A click on the generate button as written. Past the two guards, `checkApiSettings`
        calls `AIService.getCurrentApiKey`, which the AI service class does not define, so the
        handler's promise rejects with that `TypeError` (`typeError`) before any state changes:
        no generation is ever started. `None`: the handler returned at a guard. */
    method GenerateClickAsWritten(typeError: string) returns (rejected: Option<string>)
      ensures rejected.None? <==> isGenerating || |currentSelectedVectors| == 0
      ensures rejected.Some? ==> rejected.value == typeError
    {
      if isGenerating || |currentSelectedVectors| == 0 {
        return None;
      }
      rejected := Some(typeError);
    }

    /** A click on the batch button as written: past the two guards, `checkApiSettings` throws
        the same `TypeError` and no batch is ever started. */
    method BatchClickAsWritten(typeError: string) returns (rejected: Option<string>)
      ensures rejected.None? <==> isBatchGenerating || |selectedDimensions| == 0
      ensures rejected.Some? ==> rejected.value == typeError
    {
      if isBatchGenerating || |selectedDimensions| == 0 {
        return None;
      }
      rejected := Some(typeError);
    }

    /** The part of `generateInspiration` before its request; `hasApiKey` is what a repaired
        `checkApiSettings` answers (`GenerateClickAsWritten` is the click as written). A click while a generation runs, without drawn vectors or
        without usable settings does nothing; otherwise the flag is set, the button disabled,
        and the start and the request are logged. */
    method BeginGeneration(s: Settings, hasApiKey: bool, time: string) returns (started: bool)
      modifies this, debug
      ensures started <==> !old(isGenerating) && |currentSelectedVectors| > 0 && hasApiKey
      ensures !started ==> isGenerating == old(isGenerating) && generateDisabled == old(generateDisabled)
      ensures !started ==> debug.entries == old(debug.entries)
      ensures started ==> isGenerating && generateDisabled
      ensures started ==> debug.entries == Logged(old(debug.entries), StartNotes(s), time)
      ensures isBatchGenerating == old(isBatchGenerating) && batchDisabled == old(batchDisabled)
      ensures checkBoxes == old(checkBoxes) && selectedDimensions == old(selectedDimensions)
      ensures currentSelectedVectors == old(currentSelectedVectors) && currentResult == old(currentResult)
      ensures batchResults == old(batchResults) && progress == old(progress)
      ensures old(ButtonsMatch()) ==> ButtonsMatch()
    {
      if isGenerating || |currentSelectedVectors| == 0 || !hasApiKey {
        return false;
      }
      isGenerating := true;
      generateDisabled := true;
      debug.AddAll(StartNotes(s), time);
      started := true;
    }

    /** The part of `generateInspiration` after the request settled with `g`, as written: a
        result becomes the current one, and saving it through the storage class, which has no
        such static method, throws `typeError`, which is logged; the callbacks' notes are
        logged; the flag is cleared and the button enabled. */
    method FinishGeneration(g: Indienstein.Generation, typeError: string, time: string)
      modifies this, debug
      ensures currentResult == if g.result.Some? then g.result else old(currentResult)
      ensures debug.entries == Logged(old(debug.entries), FinishNotes(g, Some(typeError)), time)
      ensures !isGenerating && !generateDisabled
      ensures isBatchGenerating == old(isBatchGenerating) && batchDisabled == old(batchDisabled)
      ensures checkBoxes == old(checkBoxes) && selectedDimensions == old(selectedDimensions)
      ensures currentSelectedVectors == old(currentSelectedVectors)
      ensures batchResults == old(batchResults) && progress == old(progress)
    {
      var callbackNotes := CallbackNotes(g.events);
      debug.AddAll(callbackNotes, time);
      if g.result.Some? {
        currentResult := g.result;
        var note := ErrorNote("生成异常: " + typeError);
        debug.AddDebugInfo(note.message, note.kind, time);
        LoggedAppend(old(debug.entries), callbackNotes, [note], time);
        assert [note][..0] == [];
        assert FinishNotes(g, Some(typeError)) == callbackNotes + [note];
      } else {
        assert FinishNotes(g, Some(typeError)) == callbackNotes + [] == callbackNotes;
      }
      isGenerating := false;
      generateDisabled := false;
    }

    /** `generateInspiration()` as written, the request being `generateInspirationStream` of the
        drawn vectors: when it starts, the generation is the service's, its result becomes the
        current one, everything it logs is logged in order, and the page is ready for the next
        click with the buttons as `updateGenerateButton` would set them. */
    method GenerateInspiration(t: Table, s: Settings, reply: Reply, extract: string -> Option<string>, now: int,
      hasApiKey: bool, userPrompt: string, typeError: string, time: string)
      returns (generation: Option<Indienstein.Generation>)
      modifies this, debug
      ensures generation.Some? <==> !old(isGenerating) && |old(currentSelectedVectors)| > 0 && hasApiKey
      ensures generation.Some? ==>
        && generation.value == Indienstein.Generate(t, old(currentSelectedVectors), userPrompt,
          StreamCall(s, reply, extract, None), now)
        && debug.entries == Logged(old(debug.entries), GenerationNotes(s, generation.value, Some(typeError)), time)
        && currentResult == (if generation.value.result.Some? then generation.value.result else old(currentResult))
        && !isGenerating && !generateDisabled
      ensures generation.None? ==> debug.entries == old(debug.entries) && currentResult == old(currentResult)
      ensures generation.None? ==> isGenerating == old(isGenerating) && generateDisabled == old(generateDisabled)
      ensures isBatchGenerating == old(isBatchGenerating) && batchDisabled == old(batchDisabled)
      ensures checkBoxes == old(checkBoxes) && selectedDimensions == old(selectedDimensions)
      ensures currentSelectedVectors == old(currentSelectedVectors)
      ensures batchResults == old(batchResults) && progress == old(progress)
      ensures old(ButtonsMatch()) ==> ButtonsMatch()
    {
      var started := BeginGeneration(s, hasApiKey, time);
      if !started {
        return None;
      }
      ghost var afterStart := debug.entries;
      var g := Indienstein.GenerateInspirationStream(t, currentSelectedVectors, userPrompt, s, reply, extract, None, now);
      FinishGeneration(g, typeError, time);
      LoggedAppend(old(debug.entries), StartNotes(s), FinishNotes(g, Some(typeError)), time);
      generation := Some(g);
    }

    /** The part of `generateInspiration` after the request, with the result saved through the
        storage service the page was meant to call: the result is stored under `freshId` at
        `savedAt`, and nothing but the callbacks' notes is logged. */
    method FinishGenerationIntended(store: Storage.StorageService, g: Indienstein.Generation, freshId: string,
      savedAt: int, time: string)
      modifies this, debug, store
      ensures currentResult == if g.result.Some? then g.result else old(currentResult)
      ensures store.inspirations == old(store.inspirations) +
        if g.result.Some? then [NewRecord(g.result.value, freshId, savedAt)] else []
      ensures store.apiKeys == old(store.apiKeys) && store.settings == old(store.settings)
      ensures debug.entries == Logged(old(debug.entries), FinishNotes(g, None), time)
      ensures !isGenerating && !generateDisabled
      ensures isBatchGenerating == old(isBatchGenerating) && batchDisabled == old(batchDisabled)
      ensures checkBoxes == old(checkBoxes) && selectedDimensions == old(selectedDimensions)
      ensures currentSelectedVectors == old(currentSelectedVectors)
      ensures batchResults == old(batchResults) && progress == old(progress)
    {
      var notes := FinishNotes(g, None);
      assert notes == CallbackNotes(g.events) + [];
      debug.AddAll(notes, time);
      if g.result.Some? {
        currentResult := g.result;
        var _ := store.SaveInspiration(g.result, freshId, savedAt);
      } else {
        assert store.inspirations + [] == store.inspirations;
      }
      isGenerating := false;
      generateDisabled := false;
    }

    /** `generateInspiration()` with a working save: as written, except that each result is
        stored and no exception is logged. */
    method GenerateInspirationIntended(store: Storage.StorageService, t: Table, s: Settings, reply: Reply,
      extract: string -> Option<string>, now: int, hasApiKey: bool, userPrompt: string, freshId: string,
      time: string) returns (generation: Option<Indienstein.Generation>)
      modifies this, debug, store
      ensures generation.Some? <==> !old(isGenerating) && |old(currentSelectedVectors)| > 0 && hasApiKey
      ensures generation.Some? ==>
        && generation.value == Indienstein.Generate(t, old(currentSelectedVectors), userPrompt,
          StreamCall(s, reply, extract, None), now)
        && debug.entries == Logged(old(debug.entries), GenerationNotes(s, generation.value, None), time)
        && store.inspirations == old(store.inspirations) +
          (if generation.value.result.Some? then [NewRecord(generation.value.result.value, freshId, now)] else [])
        && !isGenerating && !generateDisabled
      ensures generation.None? ==> debug.entries == old(debug.entries) && store.inspirations == old(store.inspirations)
      ensures store.apiKeys == old(store.apiKeys) && store.settings == old(store.settings)
      ensures isBatchGenerating == old(isBatchGenerating) && currentSelectedVectors == old(currentSelectedVectors)
      ensures old(ButtonsMatch()) ==> ButtonsMatch()
    {
      var started := BeginGeneration(s, hasApiKey, time);
      if !started {
        return None;
      }
      var g := Indienstein.GenerateInspirationStream(t, currentSelectedVectors, userPrompt, s, reply, extract, None, now);
      FinishGenerationIntended(store, g, freshId, now, time);
      LoggedAppend(old(debug.entries), StartNotes(s), FinishNotes(g, None), time);
      generation := Some(g);
    }

    /** The part of `startBatchGeneration` before the service is called; `hasApiKey` is what a
        repaired `checkApiSettings` answers (`BatchClickAsWritten` is the click as written). A click while a batch runs, without a selected dimension or
        without usable settings does nothing; otherwise the flag is set, the button disabled,
        the bar and the results emptied, and the configuration built from the count and delay
        fields, the selection and the user prompt. */
    method BeginBatch(hasApiKey: bool, count: Option<int>, delay: Option<int>, userPrompt: string)
      returns (config: Option<Indienstein.BatchConfig>)
      modifies this
      ensures config.Some? <==> !old(isBatchGenerating) && |selectedDimensions| > 0 && hasApiKey
      ensures config.None? ==>
        && isBatchGenerating == old(isBatchGenerating) && batchDisabled == old(batchDisabled)
        && progress == old(progress) && batchResults == old(batchResults)
      ensures config.Some? ==>
        && config.value == BatchConfigFor(count, selectedDimensions, userPrompt, delay)
        && isBatchGenerating && batchDisabled && progress == 0 && batchResults == []
      ensures isGenerating == old(isGenerating) && generateDisabled == old(generateDisabled)
      ensures checkBoxes == old(checkBoxes) && selectedDimensions == old(selectedDimensions)
      ensures currentSelectedVectors == old(currentSelectedVectors) && currentResult == old(currentResult)
      ensures old(ButtonsMatch()) ==> ButtonsMatch()
    {
      if isBatchGenerating || |selectedDimensions| == 0 || !hasApiKey {
        return None;
      }
      isBatchGenerating := true;
      batchDisabled := true;
      progress := 0;
      batchResults := [];
      config := Some(BatchConfigFor(count, selectedDimensions, userPrompt, delay));
    }

    /** The page's batch callbacks on the events of `trace`, in order: a progress report sets
        the bar's width, a completion report stores its result under its index. */
    method ApplyBatchEvents(trace: seq<Indienstein.BatchEvent>)
      modifies this
      ensures progress == Shown(old(progress), trace)
      ensures batchResults == Recorded(old(batchResults), trace)
      ensures isGenerating == old(isGenerating) && generateDisabled == old(generateDisabled)
      ensures isBatchGenerating == old(isBatchGenerating) && batchDisabled == old(batchDisabled)
      ensures checkBoxes == old(checkBoxes) && selectedDimensions == old(selectedDimensions)
      ensures currentSelectedVectors == old(currentSelectedVectors) && currentResult == old(currentResult)
    {
      var width, results := progress, batchResults;
      for k := 0 to |trace|
        invariant width == Shown(progress, trace[..k])
        invariant results == Recorded(batchResults, trace[..k])
      {
        assert trace[..k + 1][..k] == trace[..k];
        match trace[k] {
          case Progress(current, total) =>
            if total != 0 {
              width := Percent(current, total);
            }
          case ItemComplete(index, result) =>
            results := ArraySet(results, index, result);
          case _ =>
        }
      }
      assert trace[..|trace|] == trace;
      progress, batchResults := width, results;
    }

    /** `startBatchGeneration()` as written: the page passes `onItemComplete`, so the service
        returns no result, no result is recorded and nothing reaches the save, which would
        throw (`saveThrew`, shown as a message) because the storage class has no such static
        method; the bar ends full when the count is positive and empty otherwise, and the page
        is ready for the next batch with the buttons as `updateGenerateButton` would set them. */
    method StartBatchGeneration(env: Indienstein.Env, hasApiKey: bool, count: Option<int>, delay: Option<int>,
      userPrompt: string) returns (started: bool, saveThrew: bool)
      modifies this
      ensures started <==> !old(isBatchGenerating) && |old(selectedDimensions)| > 0 && hasApiKey
      ensures started ==>
        && !saveThrew && batchResults == []
        && progress == (if BatchCount(count) > 0 then 100 else 0)
        && !isBatchGenerating && !batchDisabled
      ensures !started ==>
        && !saveThrew && isBatchGenerating == old(isBatchGenerating) && batchDisabled == old(batchDisabled)
        && progress == old(progress) && batchResults == old(batchResults)
      ensures isGenerating == old(isGenerating) && generateDisabled == old(generateDisabled)
      ensures checkBoxes == old(checkBoxes) && selectedDimensions == old(selectedDimensions)
      ensures currentSelectedVectors == old(currentSelectedVectors) && currentResult == old(currentResult)
      ensures old(ButtonsMatch()) ==> ButtonsMatch()
    {
      var config := BeginBatch(hasApiKey, count, delay, userPrompt);
      if config.None? {
        return false, false;
      }
      var results, trace := RunPageBatch(env, config.value);
      ApplyBatchEvents(trace);
      saveThrew := |results| > 0;
      isBatchGenerating := false;
      batchDisabled := false;
      started := true;
    }

    /** `startBatchGeneration()` with `onItemComplete` called once the item's result is known,
        the delay passed as `delay` and the batch saved through the storage service: the bar
        ends as before, the results
        array holds, in index order, the results the service returns (`results`), and those
        are stored, the `j`-th under `ids(j)` at `savedAt`. */
    method StartBatchGenerationIntended(store: Storage.StorageService, env: Indienstein.Env, hasApiKey: bool,
      count: Option<int>, delay: Option<int>, userPrompt: string, ids: nat -> string, savedAt: int)
      returns (started: bool, results: seq<GenerationResult>)
      modifies this, store
      ensures started <==> !old(isBatchGenerating) && |old(selectedDimensions)| > 0 && hasApiKey
      ensures started ==>
        && progress == (if BatchCount(count) > 0 then 100 else 0)
        && Defined(batchResults) == results
        && store.inspirations == old(store.inspirations) + Storage.BatchSaved(Present(results), ids, savedAt)
        && !isBatchGenerating && !batchDisabled
      ensures !started ==>
        && results == [] && store.inspirations == old(store.inspirations)
        && isBatchGenerating == old(isBatchGenerating) && batchDisabled == old(batchDisabled)
        && progress == old(progress) && batchResults == old(batchResults)
      ensures store.apiKeys == old(store.apiKeys) && store.settings == old(store.settings)
      ensures isGenerating == old(isGenerating) && selectedDimensions == old(selectedDimensions)
      ensures currentSelectedVectors == old(currentSelectedVectors) && currentResult == old(currentResult)
      ensures old(ButtonsMatch()) ==> ButtonsMatch()
    {
      var config := BeginBatch(hasApiKey, count, delay, userPrompt);
      if config.None? {
        return false, [];
      }
      var trace;
      results, trace := RunPageBatchIntended(env, BatchConfigIntended(count, selectedDimensions, userPrompt, delay));
      ApplyBatchEvents(trace);
      if |results| > 0 {
        var _ := store.SaveBatchInspirations(Some(Present(results)), ids, savedAt);
      } else {
        assert Present(results) == [];
        assert store.inspirations + [] == store.inspirations;
      }
      isBatchGenerating := false;
      batchDisabled := false;
      started := true;
    }
  }
}
