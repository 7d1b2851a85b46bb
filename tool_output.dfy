/**
 * The output-processor chain of `astwro.exttools`: the same processor classes
 * and single-pass consumption as the DAOPHOT chain, but its `StreamKeeper`
 * holds the stream it was given and never waits for a runner, a provider
 * built without a predecessor has none, and every provider can tell whether
 * its command succeeded.
 */
module ToolOutputs {
  import opened Common
  import opened OutputChain

  const NoStreamMessage := "No output stream available, call run() before collecting results."
  const NoPrevMessage := "'NoneType' object has no attribute 'get_output_stream'"

  /** The classes this module defines: `OutputProvider`, `OutputLinesProcessor`, `OutputBufferedProcessor`. */
  predicate BaseKind(k: Kind)
  {
    k == Provider || k == LinesProcessor || k == BufferedProcessor
  }

  /** `raise_if_error()` of the base classes, which do not override it: nothing to report. */
  function RaiseIfError(k: Kind): Outcome
    requires BaseKind(k)
  {
    Pass
  }

  /** `success`: true unless `raise_if_error()` raises. */
  function Success(check: Outcome): bool
  {
    !check.Fail?
  }

  /**
   * The three base classes read, of the lines left in a stream: nothing, the
   * next line only, and all of them.
   */
  lemma {:induction false} BaseSegments(lines: seq<string>, from: nat)
    requires from <= |lines|
    ensures SegmentEnd(Provider, lines, from) == from
    ensures SegmentEnd(LinesProcessor, lines, from) == if from < |lines| then from + 1 else from
    ensures SegmentEnd(BufferedProcessor, lines, from) == |lines|
    ensures Appended(BufferedProcessor, lines[from..SegmentEnd(BufferedProcessor, lines, from)]) == Concat(lines[from..])
    decreases |lines| - from
  {
    if from < |lines| {
      BaseSegments(lines, from + 1);
    }
  }

  /** One chain: its keeper and the providers built on it. */
  class ToolChain {
    const procs: Processors

    ghost predicate Valid()
      reads this, procs
    {
      procs.Valid() && forall k :: 0 <= k < |procs.nodes| ==> BaseKind(procs.nodes[k].kind)
    }

    /**
     * `success` of provider `k`: the base classes' `raise_if_error()` looks
     * at nothing, so it is true in every state of the chain, whether or not
     * the provider or the keeper holds a stream.
     */
    function SuccessOf(k: nat): (b: bool)
      reads this, procs
      requires Valid() && k < |procs.nodes|
      ensures b
    {
      Success(RaiseIfError(procs.nodes[k].kind))
    }

    /** A `StreamKeeper()` with no stream and no providers yet. */
    constructor()
      ensures Valid() && fresh(procs)
      ensures procs.nodes == [] && procs.streams == [] && procs.keeperStream == None
    {
      procs := new Processors();
    }

    /** `keeper.stream = StringIO(text)`: the keeper holds a new stream over the text. */
    method Keep(text: string) returns (s: nat)
      requires Valid()
      modifies procs
      ensures Valid()
      ensures s == |old(procs.streams)| && procs.keeperStream == Some(s)
      ensures procs.streams == old(procs.streams) + [Stream(SplitLines(text), 0)]
      ensures procs.nodes == old(procs.nodes)
    {
      s := procs.Open(text);
      procs.SetKeeperStream(Some(s));
    }

    /** A new provider of a base class with `prev_in_chain` set to `prev` (`Unlinked` for `None`). */
    method Add(kind: Kind, prev: Ref) returns (k: nat)
      requires Valid() && BaseKind(kind)
      requires prev.Proc? ==> prev.index < |procs.nodes|
      modifies procs
      ensures Valid()
      ensures k == |old(procs.nodes)|
      ensures procs.nodes == old(procs.nodes) + [Node(kind, prev, None, "", NoCache)]
      ensures procs.streams == old(procs.streams) && procs.keeperStream == old(procs.keeperStream)
    {
      k := procs.Add(kind, prev);
    }

    /**
     * `get_output_stream()` of provider `k`: a provider that holds a stream
     * returns it; otherwise the walk back over the predecessors stops at a
     * provider that holds one, at one without a predecessor (an
     * `AttributeError`), or at the keeper, which raises when it has no
     * stream. The providers walked then read their segments from that
     * stream, the farthest first. Nothing waits for a runner.
     */
    method GetOutputStream(k: nat) returns (r: Result<nat>, ghost path: seq<nat>, ghost bottom: Bottom)
      requires Valid() && k < |procs.nodes|
      modifies procs
      ensures Valid() && |procs.nodes| == |old(procs.nodes)|
      ensures (path, bottom) == Walk(old(procs.State()), old(procs.rank), k)
      ensures procs.keeperStream == old(procs.keeperStream)
      ensures r.Ok? ==> procs.nodes[k].stream == Some(r.value)
      ensures path == [] ==> r == Ok(old(procs.nodes[k].stream.value)) && procs.State() == old(procs.State())
      ensures path != [] && bottom.AtUnlinked? ==>
        r == Err(AttributeError(NoPrevMessage)) && procs.State() == old(procs.State())
      ensures path != [] && bottom.AtKeeper? && old(procs.keeperStream).None? ==>
        r == Err(RuntimeError(NoStreamMessage)) && procs.State() == old(procs.State())
      ensures path != [] && bottom.AtKeeper? && old(procs.keeperStream).Some? ==>
        r == Ok(old(procs.keeperStream.value))
      ensures path != [] && bottom.AtCached? ==>
        bottom.index < |old(procs.nodes)| && r == Ok(old(procs.nodes[bottom.index].stream.value))
      ensures r.Ok? && path != [] ==> ResolvedBy(old(procs.State()), Reverse(path), r.value, procs.State())
    {
      var w := Walk(procs.State(), procs.rank, k);
      path, bottom := w.0, w.1;
      if w.0 == [] {
        return Ok(procs.nodes[k].stream.value), path, bottom;
      }
      if w.1.AtUnlinked? {
        return Err(AttributeError(NoPrevMessage)), path, bottom;
      }
      var s: nat;
      if w.1.AtCached? {
        s := procs.nodes[w.1.index].stream.value;
      } else if procs.keeperStream.None? {
        return Err(RuntimeError(NoStreamMessage)), path, bottom;
      } else {
        s := procs.keeperStream.value;
      }
      forall j1, j2 | 0 <= j1 < j2 < |path|
        ensures path[j1] != path[j2]
      {
        WalkDistinct(old(procs.State()), old(procs.rank), k, j1, j2);
      }
      ReverseDistinct(path);
      Resolve(Reverse(w.0), s, k);
      r := Ok(s);
    }

    /** The providers on `order`, none resolved and each listed once, read their segments from stream `s`. */
    method Resolve(order: seq<nat>, s: nat, k: nat)
      requires Valid() && s < |procs.streams| && k in order
      requires forall j :: 0 <= j < |order| ==> order[j] < |procs.nodes| && procs.nodes[order[j]].stream.None?
      requires Distinct(order)
      modifies procs
      ensures Valid() && |procs.nodes| == |old(procs.nodes)|
      ensures ResolvedBy(old(procs.State()), order, s, procs.State())
      ensures procs.keeperStream == old(procs.keeperStream)
      ensures procs.nodes[k].stream == Some(s)
    {
      ghost var a := procs.State();
      ConsumeInOrderKeeps(a, order, s);
      ConsumeInOrderResolves(a, order, s, k);
      procs.ConsumeAll(order, s);
    }

    /** `get_buffer()`: the provider's segment, read first if need be. */
    method GetBuffer(k: nat) returns (r: Result<string>)
      requires Valid() && k < |procs.nodes| && Buffered(procs.nodes[k].kind)
      modifies procs
      ensures Valid() && |procs.nodes| == |old(procs.nodes)|
      ensures r.Ok? <==> procs.nodes[k].stream.Some?
      ensures r.Ok? ==> r.value == procs.nodes[k].buffer
      ensures old(procs.nodes[k].stream).Some? ==>
        r == Ok(old(procs.nodes[k].buffer)) && procs.State() == old(procs.State())
    {
      var s;
      ghost var path, bottom;
      s, path, bottom := GetOutputStream(k);
      if s.Err? {
        return Err(s.error);
      }
      r := Ok(procs.nodes[k].buffer);
    }
  }
}
