/** The reduction of a streamed backend reply to one text, with the running
    text shown to a placeholder as the chunks arrive (`write_stream`). */
module Streaming {
  import opened Wrappers

  /** One chunk of a streamed reply: the text carried by the delta of its first
      choice, `None` when the delta carries no text. */
  type Chunk = Option<string>

  /** What a chunk adds to the running text. */
  function Text(c: Chunk): string
  {
    match c
    case Some(t) => t
    case None => ""
  }

  /** The running text once the chunks of `s` have been consumed, in order. */
  function Accumulated(s: seq<Chunk>): string
  {
    if s == [] then "" else Accumulated(s[..|s| - 1]) + Text(s[|s| - 1])
  }

  /** The values handed to the placeholder, call by call: a chunk that carries
      text (even "") shows the running text twice, once when it grows and once
      after the test; a chunk without text shows it once. */
  function Renders(s: seq<Chunk>): seq<string>
  {
    if s == [] then []
    else
      var shown := Accumulated(s);
      Renders(s[..|s| - 1]) + if s[|s| - 1].Some? then [shown, shown] else [shown]
  }

  /** The number of chunks that carry text. */
  function Present(s: seq<Chunk>): nat
  {
    if s == [] then 0 else Present(s[..|s| - 1]) + if s[|s| - 1].Some? then 1 else 0
  }

  /** Consumes `response` once, front to back. `rendered` records the
      placeholder calls; the placeholder itself is not part of the model. */
  method WriteStream(response: seq<Chunk>) returns (full: string, ghost rendered: seq<string>)
    ensures full == Accumulated(response)
    ensures rendered == Renders(response)
    ensures |rendered| == |response| + Present(response)
    ensures response == [] ==> full == "" && rendered == []
    ensures response != [] ==> rendered[|rendered| - 1] == full
  {
    full := "";
    rendered := [];
    for i := 0 to |response|
      invariant full == Accumulated(response[..i])
      invariant rendered == Renders(response[..i])
    {
      assert response[..i + 1][..i] == response[..i];
      var text := response[i];
      if text.Some? {
        full := full + text.value;
        rendered := rendered + [full];
      }
      rendered := rendered + [full];
    }
    assert response[..|response|] == response;
    RendersCount(response);
  }

  /** Consuming two streams one after the other yields the two texts joined:
      the accumulation loses, duplicates and reorders nothing. */
  lemma {:induction false} AccumulatedAppend(a: seq<Chunk>, b: seq<Chunk>)
    ensures Accumulated(a + b) == Accumulated(a) + Accumulated(b)
    decreases |b|
  {
    if b == [] {
      assert a + b == a;
    } else {
      var b' := b[..|b| - 1];
      assert (a + b)[..|a + b| - 1] == a + b';
      AccumulatedAppend(a, b');
    }
  }

  /** The first chunk's text comes first. */
  lemma AccumulatedCons(c: Chunk, s: seq<Chunk>)
    ensures Accumulated([c] + s) == Text(c) + Accumulated(s)
  {
    AccumulatedAppend([c], s);
    assert [c][..0] == [];
  }

  /** A chunk without text, or with empty text, changes nothing wherever it sits. */
  lemma EmptyChunkAddsNothing(a: seq<Chunk>, c: Chunk, b: seq<Chunk>)
    requires Text(c) == ""
    ensures Accumulated(a + [c] + b) == Accumulated(a + b)
  {
    AccumulatedAppend(a + [c], b);
    AccumulatedAppend(a, b);
    assert (a + [c])[..|a|] == a;
  }

  /** One placeholder call per chunk, plus one more per chunk that carries text. */
  lemma {:induction false} RendersCount(s: seq<Chunk>)
    ensures |Renders(s)| == |s| + Present(s)
    decreases |s|
  {
    if s != [] {
      RendersCount(s[..|s| - 1]);
    }
  }

  /** Every value shown is a prefix of every later one and of the final text:
      the placeholder only ever sees the reply grow. */
  lemma {:induction false} RendersGrow(s: seq<Chunk>)
    ensures forall i | 0 <= i < |Renders(s)| :: Renders(s)[i] <= Accumulated(s)
    ensures forall i, j | 0 <= i <= j < |Renders(s)| :: Renders(s)[i] <= Renders(s)[j]
    decreases |s|
  {
    if s != [] {
      var s' := s[..|s| - 1];
      RendersGrow(s');
      var r, r' := Renders(s), Renders(s');
      assert Accumulated(s) == Accumulated(s') + Text(s[|s| - 1]);
      assert Accumulated(s') <= Accumulated(s);
      forall i | 0 <= i < |r|
        ensures r[i] <= Accumulated(s)
      {
        if i < |r'| {
          assert r[i] == r'[i];
        }
      }
    }
  }

  /** The reply of a sample first exchange: "Wel", "come", then an empty delta. */
  lemma WelcomeStream()
    ensures Accumulated([Some("Wel"), Some("come"), Some("")]) == "Welcome"
  {
    var s: seq<Chunk> := [Some("Wel"), Some("come"), Some("")];
    assert s[..2][..1] == [Some("Wel")];
    assert [Some("Wel")][..0] == [];
  }
}
