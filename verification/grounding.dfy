/**
 * Tool results of the voice channel: the `sources` a retrieval tool cites,
 * the grounding files made from them, and the bot answer made from their chunks.
 */
module Grounding {
  import JsString

  /** One cited source: `{chunk_id, title, chunk}`. */
  datatype Source = Source(chunkId: string, title: string, chunk: string)

  /** `GroundingFile`: `{id, name, content}`. */
  datatype GroundingFile = GroundingFile(id: string, name: string, content: string)

  /**
   * The outcome of `JSON.parse(message.tool_result)` followed by reading
   * `result.sources`: either the source list, or a failure (text that is not
   * JSON, or JSON without a `sources` list), which throws inside the handler.
   */
  datatype ToolResult = Malformed | Parsed(sources: seq<Source>)

  /** Separator between chunks in the bot answer. */
  const ChunkSeparator: string := "\n\n"

  /** `sources.map(x => ({id: x.chunk_id, name: x.title, content: x.chunk}))`. */
  function ToFiles(srcs: seq<Source>): (fs: seq<GroundingFile>)
    ensures |fs| == |srcs|
    ensures forall i :: 0 <= i < |srcs| ==>
      fs[i].id == srcs[i].chunkId && fs[i].name == srcs[i].title && fs[i].content == srcs[i].chunk
  {
    if |srcs| == 0 then [] else [GroundingFile(srcs[0].chunkId, srcs[0].title, srcs[0].chunk)] + ToFiles(srcs[1..])
  }

  /** `sources.map(s => s.chunk)`. */
  function Chunks(srcs: seq<Source>): (cs: seq<string>)
    ensures |cs| == |srcs|
    ensures forall i :: 0 <= i < |srcs| ==> cs[i] == srcs[i].chunk
  {
    if |srcs| == 0 then [] else [srcs[0].chunk] + Chunks(srcs[1..])
  }

  /** The bot answer: the chunks joined by a blank line. */
  function AnswerText(srcs: seq<Source>): string {
    JsString.Join(Chunks(srcs), ChunkSeparator)
  }

  /** Every chunk appears, in source order, at its place in the answer, with a blank line after all but the last. */
  lemma AnswerCarriesChunks(srcs: seq<Source>, k: nat) returns (o: nat)
    requires k < |srcs|
    ensures o == JsString.Offset(Chunks(srcs), ChunkSeparator, k)
    ensures o + |srcs[k].chunk| <= |AnswerText(srcs)|
    ensures AnswerText(srcs)[o..o + |srcs[k].chunk|] == srcs[k].chunk
    ensures k + 1 < |srcs| ==>
      o + |srcs[k].chunk| + |ChunkSeparator| <= |AnswerText(srcs)| &&
      AnswerText(srcs)[o + |srcs[k].chunk|..o + |srcs[k].chunk| + |ChunkSeparator|] == ChunkSeparator
  {
    var cs := Chunks(srcs);
    var c := srcs[k].chunk;
    assert AnswerText(srcs) == JsString.Join(cs, ChunkSeparator);
    o := JsString.Offset(cs, ChunkSeparator, k);
    assert o + |c| <= |AnswerText(srcs)| && AnswerText(srcs)[o..o + |c|] == c by {
      assert cs[k] == c;
      JsString.JoinPart(cs, ChunkSeparator, k);
    }
    if k + 1 < |srcs| {
      assert o + |c| + |ChunkSeparator| <= |AnswerText(srcs)| &&
        AnswerText(srcs)[o + |c|..o + |c| + |ChunkSeparator|] == ChunkSeparator by {
        assert cs[k] == c;
        JsString.JoinSeparator(cs, ChunkSeparator, k);
      }
    }
  }

  /** A single source yields its chunk verbatim. */
  lemma AnswerOfOneSource(x: Source)
    ensures AnswerText([x]) == x.chunk
  {
  }

  /** Mapping sources to files works piecewise, so files accumulate in source order. */
  lemma ToFilesAppend(a: seq<Source>, b: seq<Source>)
    ensures ToFiles(a + b) == ToFiles(a) + ToFiles(b)
  {
  }
}
