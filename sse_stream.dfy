/** The server-sent-events reader of the streaming completion request. Each decoded chunk of
    the response body is split on `'\n'` by itself, with nothing carried over to the next chunk;
    a line yields a delta when it is a `data: ` line that is not exactly `[DONE]`, whose payload
    parses and carries a non-empty `choices[0].delta.content`. The JSON step is the partial
    function `extract`, `None` for a payload that does not parse or has no such content. */
module Sse {
  import opened Wrappers
  import opened Text

  const DataPrefix := "data: "
  const DoneMarker := "[DONE]"

  /** The delta one line contributes. */
  function LineDelta(line: string, extract: string -> Option<string>): (d: Option<string>)
    ensures d.Some? <==>
      StartsWith(line, DataPrefix) && line[6..] != DoneMarker
      && extract(line[6..]).Some? && extract(line[6..]).value != ""
    ensures d.Some? ==> d.value == extract(line[6..]).value && d.value != ""
  {
    if !StartsWith(line, DataPrefix) then None
    else
      var data := line[6..];
      if data == DoneMarker then None
      else
        match extract(data)
        case Some(delta) => if delta != "" then Some(delta) else None
        case None => None
  }

  /** A `data: ` line hands its payload to the JSON step unless the payload is exactly
      `[DONE]`; the comparison is exact, so a `[DONE]` followed by a carriage return or a
      space goes to the JSON step like any other payload. */
  lemma {:induction false} DataLine(payload: string, extract: string -> Option<string>)
    ensures LineDelta(DataPrefix + payload, extract) ==
      if payload == DoneMarker then None
      else if extract(payload).Some? && extract(payload).value != "" then extract(payload)
      else None
  {
    var line := DataPrefix + payload;
    assert line[..6] == DataPrefix;
    assert line[6..] == payload;
  }

  /** The deltas of a chunk's lines, in order. */
  function LinesDeltas(lines: seq<string>, extract: string -> Option<string>): (ds: seq<string>)
    ensures |ds| <= |lines|
    ensures forall k :: 0 <= k < |ds| ==> ds[k] != ""
    decreases |lines|
  {
    if |lines| == 0 then []
    else
      var init := LinesDeltas(lines[..|lines| - 1], extract);
      match LineDelta(lines[|lines| - 1], extract)
      case Some(d) => init + [d]
      case None => init
  }

  function ChunkDeltas(chunk: string, extract: string -> Option<string>): seq<string> {
    LinesDeltas(Split(chunk, '\n'), extract)
  }

  /** The deltas of a whole response body: those of each chunk, chunk after chunk. */
  function StreamDeltas(chunks: seq<string>, extract: string -> Option<string>): seq<string>
    decreases |chunks|
  {
    if |chunks| == 0 then []
    else StreamDeltas(chunks[..|chunks| - 1], extract) + ChunkDeltas(chunks[|chunks| - 1], extract)
  }

  /** `completeContent += delta` over all deltas. */
  function Concat(ds: seq<string>): string
    decreases |ds|
  {
    if |ds| == 0 then "" else Concat(ds[..|ds| - 1]) + ds[|ds| - 1]
  }

  /** Chunks are processed independently: the deltas of two bodies read one after the other
      are the deltas of each. */
  lemma {:induction false} StreamDeltasAppend(a: seq<string>, b: seq<string>, extract: string -> Option<string>)
    ensures StreamDeltas(a + b, extract) == StreamDeltas(a, extract) + StreamDeltas(b, extract)
    decreases |b|
  {
    if |b| > 0 {
      var b' := b[..|b| - 1];
      assert (a + b)[..|a + b| - 1] == a + b';
      StreamDeltasAppend(a, b', extract);
    } else {
      assert a + b == a;
    }
  }

  lemma {:induction false} ConcatAppend(a: seq<string>, b: seq<string>)
    ensures Concat(a + b) == Concat(a) + Concat(b)
    decreases |b|
  {
    if |b| > 0 {
      var b' := b[..|b| - 1];
      assert (a + b)[..|a + b| - 1] == a + b';
      ConcatAppend(a, b');
    } else {
      assert a + b == a;
    }
  }

  /** Every delta adds at least one character to the accumulated content. */
  lemma {:induction false} ConcatLength(ds: seq<string>)
    requires forall k :: 0 <= k < |ds| ==> ds[k] != ""
    ensures |Concat(ds)| >= |ds|
    decreases |ds|
  {
    if |ds| > 0 {
      ConcatLength(ds[..|ds| - 1]);
    }
  }

  /** A chunk without a line break is one line. */
  lemma {:induction false} ChunkOfOneLine(line: string, extract: string -> Option<string>)
    requires forall k :: 0 <= k < |line| ==> line[k] != '\n'
    ensures ChunkDeltas(line, extract) == if LineDelta(line, extract).Some? then [LineDelta(line, extract).value] else []
  {
    SplitWithoutSeparator(line, '\n');
    assert [line][..0] == [];
  }

  /** With no buffer between chunks, an event whose line is cut by a chunk boundary is lost:
      a line whose payload yields a delta when it arrives in one chunk yields nothing when the
      payload is cut where its first part does not parse and its second part is not a `data: `
      line of its own. */
  lemma {:induction false} SplitLineIsLost(payload: string, cut: nat, extract: string -> Option<string>)
    requires forall k :: 0 <= k < |payload| ==> payload[k] != '\n'
    requires cut <= |payload| && payload != DoneMarker
    requires extract(payload).Some? && extract(payload).value != ""
    requires extract(payload[..cut]).None? && !StartsWith(payload[cut..], DataPrefix)
    ensures StreamDeltas([DataPrefix + payload], extract) == [extract(payload).value]
    ensures StreamDeltas([DataPrefix + payload[..cut], payload[cut..]], extract) == []
  {
    var whole, first, second := DataPrefix + payload, DataPrefix + payload[..cut], payload[cut..];
    DataLine(payload, extract);
    DataLine(payload[..cut], extract);
    assert forall k :: 0 <= k < |whole| ==> whole[k] != '\n' by {
      assert forall k :: 0 <= k < |DataPrefix| ==> DataPrefix[k] != '\n';
    }
    assert forall k :: 0 <= k < |first| ==> first[k] != '\n' by {
      assert forall k :: 0 <= k < |DataPrefix| ==> DataPrefix[k] != '\n';
    }
    ChunkOfOneLine(whole, extract);
    ChunkOfOneLine(first, extract);
    ChunkOfOneLine(second, extract);
    assert [first, second][..1] == [first];
    assert [first][..0] == [] && [whole][..0] == [];
  }

  /** The read loop: reads each chunk, splits it into lines and accumulates the deltas; the
      returned deltas are the `onContent` calls in order and `content` what `onComplete` gets. */
  method ReadStream(chunks: seq<string>, extract: string -> Option<string>) returns (deltas: seq<string>, content: string)
    ensures deltas == StreamDeltas(chunks, extract)
    ensures content == Concat(deltas)
  {
    deltas := [];
    content := "";
    for i := 0 to |chunks|
      invariant deltas == StreamDeltas(chunks[..i], extract)
      invariant content == Concat(deltas)
    {
      ghost var before := deltas;
      var lines := Split(chunks[i], '\n');
      for j := 0 to |lines|
        invariant deltas == before + LinesDeltas(lines[..j], extract)
        invariant content == Concat(deltas)
      {
        assert lines[..j + 1][..j] == lines[..j];
        deltas, content := ReadLine(lines[j], extract, deltas, content);
        if LineDelta(lines[j], extract).Some? {
          AppendAssoc(before, LinesDeltas(lines[..j], extract), [LineDelta(lines[j], extract).value]);
        }
      }
      assert lines[..|lines|] == lines;
      assert chunks[..i + 1][..i] == chunks[..i];
    }
    assert chunks[..|chunks|] == chunks;
  }

  /** One line of a chunk: the delta it carries, if any, is appended to the deltas and to the
      content. */
  method ReadLine(line: string, extract: string -> Option<string>, deltas: seq<string>, content: string)
    returns (deltas': seq<string>, content': string)
    requires content == Concat(deltas)
    ensures deltas' == if LineDelta(line, extract).Some? then deltas + [LineDelta(line, extract).value] else deltas
    ensures content' == Concat(deltas')
  {
    deltas', content' := deltas, content;
    if StartsWith(line, DataPrefix) {
      var data := line[6..];
      if data != DoneMarker {
        var delta := extract(data);
        if delta.Some? && delta.value != "" {
          assert (deltas + [delta.value])[..|deltas|] == deltas;
          deltas' := deltas + [delta.value];
          content' := content + delta.value;
        }
      }
    }
  }
}
