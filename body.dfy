/** Assembly of a POST request body from the chunks that arrive on the
    connection, one `data` event per chunk. */
module Body {

  /** The number of characters in all the chunks together. */
  function TotalLength(chunks: seq<string>): nat
  {
    if chunks == [] then 0 else TotalLength(chunks[..|chunks| - 1]) + |chunks[|chunks| - 1]|
  }

  /** The text of the chunks joined in arrival order: each new chunk goes
      after everything received before it. */
  function Concat(chunks: seq<string>): (body: string)
    ensures chunks == [] ==> body == ""
    ensures |body| == TotalLength(chunks)
  {
    if chunks == [] then "" else Concat(chunks[..|chunks| - 1]) + chunks[|chunks| - 1]
  }

  /** Where chunk `i` starts in the assembled body: the length of the chunks
      that arrived before it. */
  function Offset(chunks: seq<string>, i: nat): nat
    requires i <= |chunks|
  {
    TotalLength(chunks[..i])
  }

  /** Joining is compatible with splitting the arrivals anywhere: the body of
      `a + b` is the body of `a` followed by the body of `b`. */
  lemma {:induction false} ConcatAppend(a: seq<string>, b: seq<string>)
    ensures Concat(a + b) == Concat(a) + Concat(b)
  {
    if b == [] {
      assert a + b == a;
    } else {
      var b' := b[..|b| - 1];
      assert (a + b)[..|a + b| - 1] == a + b';
      ConcatAppend(a, b');
    }
  }

  /** A chunk received first comes first in the body. */
  lemma ConcatCons(c: string, rest: seq<string>)
    ensures Concat([c] + rest) == c + Concat(rest)
  {
    ConcatAppend([c], rest);
    assert [c][..0] == [];
  }

  /** A chunk delivered in two pieces adds the same text as the whole chunk. */
  lemma ConcatSplit(before: seq<string>, x: string, y: string, after: seq<string>)
    ensures Concat(before + [x + y] + after) == Concat(before + [x, y] + after)
  {
    ConcatAppend(before + [x + y], after);
    ConcatAppend(before + [x, y], after);
    assert (before + [x + y])[..|before|] == before;
    assert (before + [x, y])[..|before| + 1] == before + [x];
    assert (before + [x])[..|before|] == before;
    assert Concat(before + [x, y]) == Concat(before) + x + y;
    assert Concat(before + [x + y]) == Concat(before) + (x + y);
  }

  /** Chunk `i` appears, unmodified, at its arrival position in the body. */
  lemma {:induction false} ChunkAt(chunks: seq<string>, i: nat)
    requires i < |chunks|
    ensures Offset(chunks, i) + |chunks[i]| <= |Concat(chunks)|
    ensures Concat(chunks)[Offset(chunks, i)..Offset(chunks, i) + |chunks[i]|] == chunks[i]
  {
    var before, rest := chunks[..i], chunks[i + 1..];
    assert chunks == before + [chunks[i]] + rest;
    ConcatAppend(before + [chunks[i]], rest);
    ConcatAppend(before, [chunks[i]]);
    assert [chunks[i]][..0] == [];
    var body := Concat(chunks);
    assert body == Concat(before) + chunks[i] + Concat(rest);
    assert body[|Concat(before)|..|Concat(before)| + |chunks[i]|] == chunks[i];
  }

  /** `let body = ''` followed by `body += chunk.toString()` on every data
      event, the events taken in arrival order. */
  method AccumulateBody(chunks: seq<string>) returns (body: string)
    ensures body == Concat(chunks)
  {
    body := "";
    var i := 0;
    while i < |chunks|
      invariant 0 <= i <= |chunks|
      invariant body == Concat(chunks[..i])
    {
      assert chunks[..i + 1][..i] == chunks[..i];
      body := body + chunks[i];
      i := i + 1;
    }
    assert chunks[..i] == chunks;
  }
}
