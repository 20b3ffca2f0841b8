/**
 * The pure pieces of the chat handlers: the `prev.map` id-replacements that
 * every streamed chunk and the end of every stream apply to the log, and the
 * `fullResponseText` accumulator that the chunk loops build.
 */
module ChatLog {
  import opened Base
  import opened Types

  /**
   * What one `sendMessageStream` call delivers. `Refused`: the call itself
   * throws before any chunk. `Streamed`: the chunks arrive in order, each
   * with its optional `text`; when `broken`, iteration throws after the last.
   */
  datatype Reply = Refused | Streamed(chunks: seq<Option<string>>, broken: bool)

  /** A fresh id and clock reading, for one `Date.now()` / `new Date()` pair. */
  datatype Stamp = Stamp(id: string, time: Timestamp)

  /** No message of the log carries `id`. */
  predicate IdFree(log: seq<Message>, id: string) {
    forall i :: 0 <= i < |log| ==> log[i].id != id
  }

  /** The text a chunk contributes: undefined and '' are both skipped by `if (c.text)`. */
  function ChunkText(chunk: Option<string>): string {
    chunk.GetOr("")
  }

  /** The value of `fullResponseText` after the given chunks. */
  function Accumulate(chunks: seq<Option<string>>): string {
    if chunks == [] then ""
    else Accumulate(chunks[..|chunks| - 1]) + ChunkText(chunks[|chunks| - 1])
  }

  /** Concatenation is a homomorphism: two stretches of stream accumulate to
      the concatenation of their texts, none reordered or dropped. */
  lemma {:induction false} AccumulateAppend(a: seq<Option<string>>, b: seq<Option<string>>)
    ensures Accumulate(a + b) == Accumulate(a) + Accumulate(b)
  {
    if b == [] {
      assert a + b == a;
    } else {
      var init, last := b[..|b| - 1], b[|b| - 1];
      assert (a + b)[..|a + b| - 1] == a + init;
      assert (a + b)[|a + b| - 1] == last;
      AccumulateAppend(a, init);
      calc {
        Accumulate(a + b);
        Accumulate(a + init) + ChunkText(last);
        Accumulate(a) + Accumulate(init) + ChunkText(last);
        Accumulate(a) + Accumulate(b);
      }
    }
  }

  /** Every intermediate buffer is a prefix of every later one, in particular
      of the final text. */
  lemma AccumulatePrefix(chunks: seq<Option<string>>, i: nat, j: nat)
    requires i <= j <= |chunks|
    ensures Accumulate(chunks[..i]) <= Accumulate(chunks[..j])
  {
    AccumulateAppend(chunks[..i], chunks[i..j]);
    assert chunks[..i] + chunks[i..j] == chunks[..j];
  }

  /** A stream without any text leaves the buffer empty. */
  lemma {:induction false} AccumulateSilent(chunks: seq<Option<string>>)
    requires forall i :: 0 <= i < |chunks| ==> ChunkText(chunks[i]) == ""
    ensures Accumulate(chunks) == ""
  {
    if chunks != [] {
      AccumulateSilent(chunks[..|chunks| - 1]);
    }
  }

  /** The buffer values the loop writes into the placeholder, one per chunk
      with text, in order. */
  function Writes(chunks: seq<Option<string>>): seq<string> {
    if chunks == [] then []
    else Writes(chunks[..|chunks| - 1]) + (if ChunkText(chunks[|chunks| - 1]) != "" then [Accumulate(chunks)] else [])
  }

  /** Every write is a prefix of the final text. */
  lemma {:induction false} WritesPrefixOfFinal(chunks: seq<Option<string>>)
    ensures forall k :: 0 <= k < |Writes(chunks)| ==> Writes(chunks)[k] <= Accumulate(chunks)
  {
    if chunks != [] {
      var init := chunks[..|chunks| - 1];
      WritesPrefixOfFinal(init);
      AccumulatePrefix(chunks, |chunks| - 1, |chunks|);
      assert chunks[..|chunks|] == chunks;
      var w := Writes(chunks);
      forall k | 0 <= k < |w|
        ensures w[k] <= Accumulate(chunks)
      {
        if k < |Writes(init)| {
          assert w[k] == Writes(init)[k];
        }
      }
    }
  }

  /** Later writes extend earlier ones. */
  lemma {:induction false} WritesIncrease(chunks: seq<Option<string>>)
    ensures forall k, l :: 0 <= k <= l < |Writes(chunks)| ==> Writes(chunks)[k] <= Writes(chunks)[l]
  {
    if chunks != [] {
      var init := chunks[..|chunks| - 1];
      WritesIncrease(init);
      WritesPrefixOfFinal(init);
      AccumulatePrefix(chunks, |chunks| - 1, |chunks|);
      assert chunks[..|chunks|] == chunks;
      var w, wi := Writes(chunks), Writes(init);
      forall k, l | 0 <= k <= l < |w|
        ensures w[k] <= w[l]
      {
        if l < |wi| {
          assert w[k] == wi[k] && w[l] == wi[l];
        } else if k < |wi| {
          assert w[k] == wi[k];
        }
      }
    }
  }

  /** The last write is the final text. */
  lemma {:induction false} WritesLast(chunks: seq<Option<string>>)
    requires Writes(chunks) != []
    ensures Writes(chunks)[|Writes(chunks)| - 1] == Accumulate(chunks)
    decreases |chunks|
  {
    var init := chunks[..|chunks| - 1];
    if ChunkText(chunks[|chunks| - 1]) == "" {
      WritesLast(init);
      assert Accumulate(chunks) == Accumulate(init) + "";
    }
  }

  /** There is a write exactly when some chunk carries text. */
  lemma {:induction false} WritesEmptyIffSilent(chunks: seq<Option<string>>)
    ensures Writes(chunks) == [] <==> forall i :: 0 <= i < |chunks| ==> ChunkText(chunks[i]) == ""
  {
    if chunks != [] {
      var init := chunks[..|chunks| - 1];
      WritesEmptyIffSilent(init);
      assert forall i :: 0 <= i < |init| ==> init[i] == chunks[i];
    }
  }

  /** `prev.map(msg => msg.id === id ? { ...msg, text } : msg)` */
  function SetTextById(log: seq<Message>, id: string, text: string): (r: seq<Message>)
    ensures |r| == |log|
    ensures forall i :: 0 <= i < |log| && log[i].id != id ==> r[i] == log[i]
    ensures forall i :: 0 <= i < |log| && log[i].id == id ==> r[i] == log[i].(text := text)
  {
    if log == [] then []
    else
      var last := log[|log| - 1];
      SetTextById(log[..|log| - 1], id, text) + [if last.id == id then last.(text := text) else last]
  }

  /** `prev.map(msg => msg.id === id ? { ...msg, isStreaming: false } : msg)` */
  function StopStreamingById(log: seq<Message>, id: string): (r: seq<Message>)
    ensures |r| == |log|
    ensures forall i :: 0 <= i < |log| && log[i].id != id ==> r[i] == log[i]
    ensures forall i :: 0 <= i < |log| && log[i].id == id ==> r[i] == log[i].(isStreaming := false)
  {
    if log == [] then []
    else
      var last := log[|log| - 1];
      StopStreamingById(log[..|log| - 1], id) + [if last.id == id then last.(isStreaming := false) else last]
  }

  /** When the id is fresh for everything before the last message, the
      per-chunk update rewrites the last message alone. */
  lemma SetTextOnLast(before: seq<Message>, m: Message, text: string)
    requires IdFree(before, m.id)
    ensures SetTextById(before + [m], m.id, text) == before + [m.(text := text)]
  {
    var r := SetTextById(before + [m], m.id, text);
    assert forall i :: 0 <= i < |before| ==> r[i] == before[i];
  }

  /** Likewise for the end-of-stream update. */
  lemma StopStreamingOnLast(before: seq<Message>, m: Message)
    requires IdFree(before, m.id)
    ensures StopStreamingById(before + [m], m.id) == before + [m.(isStreaming := false)]
  {
    var r := StopStreamingById(before + [m], m.id);
    assert forall i :: 0 <= i < |before| ==> r[i] == before[i];
  }

  /** The assistant message once its stream has ended: the whole accumulated
      text, and the streaming flag cleared only when the stream completed. */
  function Finished(placeholder: Message, chunks: seq<Option<string>>, broken: bool): Message {
    if broken then placeholder.(text := Accumulate(chunks))
    else placeholder.(text := Accumulate(chunks), isStreaming := false)
  }

  /** The number of messages in the log still flagged as streaming. */
  function StreamingCount(log: seq<Message>): nat {
    if log == [] then 0
    else StreamingCount(log[..|log| - 1]) + (if log[|log| - 1].isStreaming then 1 else 0)
  }

  lemma StreamingCountOne(m: Message)
    ensures StreamingCount([m]) == if m.isStreaming then 1 else 0
  {
    assert [m][..0] == [];
  }

  lemma {:induction false} StreamingCountAppend(a: seq<Message>, b: seq<Message>)
    ensures StreamingCount(a + b) == StreamingCount(a) + StreamingCount(b)
  {
    if b == [] {
      assert a + b == a;
    } else {
      StreamingCountAppend(a, b[..|b| - 1]);
      assert (a + b)[..|a + b| - 1] == a + b[..|b| - 1];
    }
  }
}
