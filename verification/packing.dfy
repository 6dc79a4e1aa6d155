/** The two delivery-shaping loops shared by the weekly report and the
    hall-of-shame script: greedy packing of text entries into embed
    descriptions of bounded length, and splitting the embed list into
    consecutive webhook posts. */
module Packing {
  import opened Text

  /** The greedy loop of weekly_report.py and inspect_worst_games.py: an
      entry is appended to the current chunk when the two together fit in
      `limit` characters; otherwise the current chunk is flushed (even when it
      is still empty) and the entry starts a new one. At the end the current
      chunk is kept only if it is not blank (`if current_chunk.strip()`).

      `cuts` is the proof's record of where each chunk starts in `entries`:
      chunk i is exactly entries[cuts[i]..cuts[i+1]] joined. */
  method PackEntries(entries: seq<string>, limit: nat) returns (chunks: seq<string>, ghost cuts: seq<nat>)
    ensures chunks == PackChunks(entries, limit) && cuts == PackCuts(entries, limit)
    ensures Packed(entries, limit, chunks, cuts)
    // an oversize first entry flushes an empty first chunk
    ensures |entries| > 0 && |entries[0]| > limit ==> |chunks| > 0 && chunks[0] == ""
    // nothing is lost but a blank tail
    ensures IsBlank(Concat(entries[cuts[|chunks|]..]))
    ensures Concat(chunks) + Concat(entries[cuts[|chunks|]..]) == Concat(entries)
  {
    chunks := [];
    var current := "";
    var i := 0;
    while i < |entries|
      invariant i <= |entries|
      invariant Pending(chunks, current) == PackPrefix(entries[..i], limit)
    {
      var entry := entries[i];
      assert entries[..i + 1][..i] == entries[..i];
      if |current| + |entry| > limit {
        chunks := chunks + [current];
        current := entry;
      } else {
        current := current + entry;
      }
      i := i + 1;
    }
    assert entries[..i] == entries;
    if Strip(current) != [] {
      chunks := chunks + [current];
    }
    cuts := PackCuts(entries, limit);
    PackChunksShape(entries, limit);
  }

  /** The state of the packing loop: the chunks flushed so far and the one
      being filled. */
  datatype Pending = Pending(chunks: seq<string>, current: string)

  /** One iteration: flush and restart when the entry does not fit, else append. */
  function PackStep(p: Pending, entry: string, limit: nat): Pending {
    if |p.current| + |entry| > limit then Pending(p.chunks + [p.current], entry)
    else Pending(p.chunks, p.current + entry)
  }

  /** The loop state after the given entries. */
  function PackPrefix(entries: seq<string>, limit: nat): Pending
    decreases |entries|
  {
    if entries == [] then Pending([], "")
    else PackStep(PackPrefix(entries[..|entries| - 1], limit), entries[|entries| - 1], limit)
  }

  /** The chunks the loop returns: the final chunk is kept only when not blank. */
  function PackChunks(entries: seq<string>, limit: nat): seq<string> {
    var p := PackPrefix(entries, limit);
    if Strip(p.current) != [] then p.chunks + [p.current] else p.chunks
  }

  /** Where each flushed chunk starts in `entries`, followed by where the
      pending chunk starts. */
  ghost function PrefixCuts(entries: seq<string>, limit: nat): seq<nat>
    decreases |entries|
  {
    if entries == [] then [0]
    else
      var prefix := entries[..|entries| - 1];
      var p := PackPrefix(prefix, limit);
      if |p.current| + |entries[|entries| - 1]| > limit then PrefixCuts(prefix, limit) + [|entries| - 1]
      else PrefixCuts(prefix, limit)
  }

  ghost function PackCuts(entries: seq<string>, limit: nat): seq<nat> {
    var p := PackPrefix(entries, limit);
    if Strip(p.current) != [] then PrefixCuts(entries, limit) + [|entries|] else PrefixCuts(entries, limit)
  }

  /** The packing invariant at the loop state after i entries. */
  ghost predicate PrefixPacked(entries: seq<string>, limit: nat, i: nat)
    requires i <= |entries|
  {
    var p, c := PackPrefix(entries[..i], limit), PrefixCuts(entries[..i], limit);
    |c| == |p.chunks| + 1 && Packing(entries, limit, p.chunks, c, p.current, c[|p.chunks|], i)
  }

  /** After i entries the loop state satisfies the packing invariant. */
  lemma {:induction false} PackPrefixInvariant(entries: seq<string>, limit: nat, i: nat)
    requires i <= |entries|
    ensures PrefixPacked(entries, limit, i)
  {
    if i == 0 {
      assert entries[..0] == [] && entries[0..0] == [];
    } else {
      PackPrefixInvariant(entries, limit, i - 1);
      PrefixStep(entries, limit, i);
    }
  }

  lemma PrefixStep(entries: seq<string>, limit: nat, i: nat)
    requires 0 < i <= |entries| && PrefixPacked(entries, limit, i - 1)
    ensures PrefixPacked(entries, limit, i)
  {
    var prefix := entries[..i][..i - 1];
    assert prefix == entries[..i - 1];
    assert entries[..i][i - 1] == entries[i - 1];
    var p, c := PackPrefix(prefix, limit), PrefixCuts(prefix, limit);
    if |p.current| + |entries[i - 1]| > limit {
      assert PackPrefix(entries[..i], limit) == Pending(p.chunks + [p.current], entries[i - 1]);
      assert PrefixCuts(entries[..i], limit) == c + [i - 1];
      FlushStep(entries, limit, p.chunks, c, p.current, c[|p.chunks|], i - 1);
    } else {
      assert PackPrefix(entries[..i], limit) == Pending(p.chunks, p.current + entries[i - 1]);
      assert PrefixCuts(entries[..i], limit) == c;
      AppendStep(entries, limit, p.chunks, c, p.current, c[|p.chunks|], i - 1);
    }
  }

  /** What the returned chunks are, in terms of the entries. */
  lemma PackChunksShape(entries: seq<string>, limit: nat)
    ensures var chunks, cuts := PackChunks(entries, limit), PackCuts(entries, limit);
      && Packed(entries, limit, chunks, cuts)
      && (|entries| > 0 && |entries[0]| > limit ==> |chunks| > 0 && chunks[0] == "")
      && IsBlank(Concat(entries[cuts[|chunks|]..]))
      && Concat(chunks) + Concat(entries[cuts[|chunks|]..]) == Concat(entries)
  {
    PackPrefixInvariant(entries, limit, |entries|);
    assert entries[..|entries|] == entries;
    var p, c := PackPrefix(entries, limit), PrefixCuts(entries, limit);
    if Strip(p.current) != [] {
      assert PackChunks(entries, limit) == p.chunks + [p.current];
      assert PackCuts(entries, limit) == c + [|entries|];
      Finish(entries, limit, p.chunks, c, p.current, c[|p.chunks|]);
      assert entries[|entries|..] == [];
    } else {
      assert PackChunks(entries, limit) == p.chunks;
      assert PackCuts(entries, limit) == c;
      Drop(entries, limit, p.chunks, c, p.current, c[|p.chunks|]);
    }
  }

  /** The loop state of PackEntries after `i` entries: the flushed chunks
      are packed up to `start`, and `current` holds entries[start..i]. */
  ghost predicate Packing(entries: seq<string>, limit: nat, chunks: seq<string>, cuts: seq<nat>,
                          current: string, start: nat, i: nat) {
    && start <= i <= |entries|
    && Packed(entries, limit, chunks, cuts) && cuts[|chunks|] == start
    && (|chunks| > 0 ==> start < i)
    && (i > 0 && |entries[0]| > limit ==> |chunks| > 0 && chunks[0] == "")
    && current == Concat(entries[start..i])
    && (|current| > limit ==> i == start + 1)
    && Concat(chunks) + current == Concat(entries[..i])
  }

  /** The non-blank final chunk is kept. */
  lemma Finish(entries: seq<string>, limit: nat, chunks: seq<string>, cuts: seq<nat>, current: string, start: nat)
    requires Packing(entries, limit, chunks, cuts, current, start, |entries|)
    ensures var chunks', cuts' := chunks + [current], cuts + [|entries|];
      && Packed(entries, limit, chunks', cuts')
      && (|entries| > 0 && |entries[0]| > limit ==> chunks'[0] == "")
      && cuts'[|chunks'|] == |entries|
      && Concat(chunks') == Concat(entries)
  {
    assert entries[..|entries|] == entries;
    ConcatAppend(chunks, [current]);
    assert Concat([current]) == current + Concat([]);
    PackedFlush(entries, limit, chunks, cuts, current, start, |entries|, chunks + [current], cuts + [|entries|]);
  }

  /** A blank final chunk is dropped. */
  lemma Drop(entries: seq<string>, limit: nat, chunks: seq<string>, cuts: seq<nat>, current: string, start: nat)
    requires Packing(entries, limit, chunks, cuts, current, start, |entries|)
    requires Strip(current) == []
    ensures Packed(entries, limit, chunks, cuts)
    ensures |entries| > 0 && |entries[0]| > limit ==> |chunks| > 0 && chunks[0] == ""
    ensures IsBlank(Concat(entries[cuts[|chunks|]..]))
    ensures Concat(chunks) + Concat(entries[cuts[|chunks|]..]) == Concat(entries)
  {
    assert entries[..|entries|] == entries;
    assert entries[start..|entries|] == entries[start..];
  }

  lemma FlushStep(entries: seq<string>, limit: nat, chunks: seq<string>, cuts: seq<nat>,
                  current: string, start: nat, i: nat)
    requires Packing(entries, limit, chunks, cuts, current, start, i) && i < |entries|
    requires |current| + |entries[i]| > limit
    ensures Packing(entries, limit, chunks + [current], cuts + [i], entries[i], i, i + 1)
  {
    ConcatSnoc(entries, 0, i);
    ConcatAppend(chunks, [current]);
    assert Concat([current]) == current + Concat([]);
    assert entries[i..i + 1] == [entries[i]];
    assert Concat([entries[i]]) == entries[i] + Concat([]);
    PackedFlush(entries, limit, chunks, cuts, current, start, i, chunks + [current], cuts + [i]);
  }

  lemma AppendStep(entries: seq<string>, limit: nat, chunks: seq<string>, cuts: seq<nat>,
                   current: string, start: nat, i: nat)
    requires Packing(entries, limit, chunks, cuts, current, start, i) && i < |entries|
    requires |current| + |entries[i]| <= limit
    ensures Packing(entries, limit, chunks, cuts, current + entries[i], start, i + 1)
  {
    ConcatSnoc(entries, start, i);
    ConcatSnoc(entries, 0, i);
  }

  /** The shape of a greedy packing: chunk i is exactly the entries
      entries[cuts[i]..cuts[i+1]] joined; only the first chunk may hold no
      entry; a chunk over the limit is a single oversize entry; and the entry
      that opened the next chunk did not fit into this one. */
  ghost predicate Packed(entries: seq<string>, limit: nat, chunks: seq<string>, cuts: seq<nat>) {
    && |cuts| == |chunks| + 1 && cuts[0] == 0 && cuts[|chunks|] <= |entries|
    && (forall i {:trigger chunks[i]} :: 0 <= i < |chunks| ==>
          && cuts[i] <= cuts[i + 1] <= |entries|
          && chunks[i] == Concat(entries[cuts[i]..cuts[i + 1]])
          && (0 < i ==> cuts[i] < cuts[i + 1])
          && (|chunks[i]| > limit ==> cuts[i + 1] == cuts[i] + 1)
          && (cuts[i + 1] < |entries| ==> |chunks[i]| + |entries[cuts[i + 1]]| > limit))
  }

  lemma PackedFlush(entries: seq<string>, limit: nat, chunks: seq<string>, cuts: seq<nat>,
                    current: string, start: nat, i: nat, chunks': seq<string>, cuts': seq<nat>)
    requires Packed(entries, limit, chunks, cuts) && cuts[|chunks|] == start
    requires chunks' == chunks + [current] && cuts' == cuts + [i]
    requires start <= i <= |entries| && current == Concat(entries[start..i])
    requires |chunks| > 0 ==> start < i
    requires |current| > limit ==> i == start + 1
    requires i < |entries| ==> |current| + |entries[i]| > limit
    ensures Packed(entries, limit, chunks', cuts')
  {
    forall j {:trigger chunks'[j]} | 0 <= j < |chunks'|
      ensures cuts'[j] <= cuts'[j + 1] <= |entries| && chunks'[j] == Concat(entries[cuts'[j]..cuts'[j + 1]])
      ensures 0 < j ==> cuts'[j] < cuts'[j + 1]
      ensures |chunks'[j]| > limit ==> cuts'[j + 1] == cuts'[j] + 1
      ensures cuts'[j + 1] < |entries| ==> |chunks'[j]| + |entries[cuts'[j + 1]]| > limit
    {
      if j < |chunks| {
        assert chunks'[j] == chunks[j] && cuts'[j] == cuts[j] && cuts'[j + 1] == cuts[j + 1];
      }
    }
  }

  /** When no entry is blank, the dropped tail is empty: every entry is in
      some chunk and the chunks joined are the entries joined. */
  lemma NothingDropped(entries: seq<string>, limit: nat, chunks: seq<string>, cuts: seq<nat>)
    requires Packed(entries, limit, chunks, cuts)
    requires IsBlank(Concat(entries[cuts[|chunks|]..]))
    requires Concat(chunks) + Concat(entries[cuts[|chunks|]..]) == Concat(entries)
    requires forall i :: 0 <= i < |entries| ==> !IsBlank(entries[i])
    ensures cuts[|chunks|] == |entries|
    ensures Concat(chunks) == Concat(entries)
  {
    var c := cuts[|chunks|];
    NonBlankHead(entries[c..]);
    assert entries[c..] == [];
  }

  /** A join that starts with a non-blank part is not blank. */
  lemma NonBlankHead(parts: seq<string>)
    ensures |parts| > 0 && !IsBlank(parts[0]) ==> !IsBlank(Concat(parts))
  {
    if |parts| > 0 && !IsBlank(parts[0]) {
      var k :| 0 <= k < |parts[0]| && !IsSpace(parts[0][k]);
      assert Concat(parts)[k] == parts[0][k];
    }
  }

  /** Python's `[items[i:i+size] for i in range(0, len(items), size)]`. */
  method Batches<T>(items: seq<T>, size: nat) returns (batches: seq<seq<T>>)
    requires size > 0
    ensures Flatten(batches) == items
    ensures forall b :: b in batches ==> 0 < |b| <= size
    ensures forall i :: 0 <= i < |batches| - 1 ==> |batches[i]| == size
  {
    batches := [];
    var i := 0;
    while i < |items|
      invariant i <= |items|
      invariant Flatten(batches) == items[..i]
      invariant forall b :: b in batches ==> 0 < |b| <= size
      invariant forall j :: 0 <= j < |batches| ==> |batches[j]| == size
      decreases |items| - i
    {
      var end := if i + size <= |items| then i + size else |items|;
      FlattenAppend(batches, [items[i..end]]);
      assert Flatten([items[i..end]]) == items[i..end] + Flatten([]);
      assert items[..end] == items[..i] + items[i..end];
      if end < i + size {
        batches := batches + [items[i..end]];
        assert end == |items|;
        assert items[..end] == items;
        return;
      }
      batches := batches + [items[i..end]];
      i := end;
    }
    assert items[..i] == items;
  }

  function Flatten<T>(parts: seq<seq<T>>): seq<T>
    decreases |parts|
  {
    if parts == [] then [] else parts[0] + Flatten(parts[1..])
  }

  lemma {:induction false} FlattenAppend<T>(a: seq<seq<T>>, b: seq<seq<T>>)
    ensures Flatten(a + b) == Flatten(a) + Flatten(b)
    decreases |a|
  {
    if a == [] {
      assert a + b == b;
    } else {
      assert (a + b)[1..] == a[1..] + b;
      FlattenAppend(a[1..], b);
    }
  }
}
