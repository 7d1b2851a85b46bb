/**
 * The output-processor chain shared by the DAOPHOT/ALLSTAR runner and by the
 * external-tool variant: processor objects, the `StringIO` streams they read,
 * and the single-pass, line-by-line consumption rule of `_consume`.
 *
 * Processors and streams live in an arena (`Processors`); a processor names its
 * predecessor by index (`Ref`), and `Keeper` is the chain's `StreamKeeper`.
 */
module OutputChain {
  import opened Common
  import OutputProviders

  /** The processor classes, by the rule their `_process_line` follows. */
  datatype Kind =
    | Provider           // `OutputProvider`: `_consume` reads nothing
    | LinesProcessor     // `OutputLinesProcessor`: every line is the last one
    | BufferedProcessor  // `OutputBufferedProcessor`: `_is_last_one` gives None
    | DaophotCommand     // segment ends at a line containing `Command:`
    | Attach             // `DPOP_ATtach`
    | OptionListing      // `DPOP_OPtion`
    | PsfErrors          // `DpOp_PSf`
    | AllstarOptions     // `AsOp_opt`: segment ends at `Input image name:`
    | AllstarResult      // `AsOp_result`: never a last line

  /** `OutputBufferedProcessor` and its subclasses keep the lines they read. */
  predicate Buffered(k: Kind)
  {
    k != Provider && k != LinesProcessor
  }

  const CommandPrompt := "Command:"
  const AllstarSeparator := "Input image name:"

  /** What `_process_line` returns for `line`: true ends the processor's segment. */
  predicate IsLast(k: Kind, line: string)
  {
    match k
    case Provider => false
    case LinesProcessor => true
    case BufferedProcessor => false
    case AllstarResult => false
    case AllstarOptions => Contains(line, AllstarSeparator)
    case _ => Contains(line, CommandPrompt)
  }

  /** A processor's predecessor: the stream keeper, another processor, or none set. */
  datatype Ref = Keeper | Proc(index: nat) | Unlinked

  /**
   * Which accessor properties have memoised their value: `__options` of
   * `DPOP_OPtion` and `AsOp_opt`, `__errors` and `__data` of `DpOp_PSf`,
   * `__stars` of `AsOp_result`. A memoised value is the parse of the buffer
   * at the time of the first successful access; since only a processor that
   * has read its segment memoises, and such a buffer never changes again
   * (`ConsumeInOrderKeeps`), that value is the parse of the current buffer,
   * and the model records only whether it has been taken.
   */
  datatype Cache = Cache(options: bool, errors: bool, data: bool, stars: bool)

  const NoCache := Cache(false, false, false, false)

  /** A processor object: `_prev_in_chain`, `__stream`, `__buffer` and its cache. */
  datatype Node = Node(kind: Kind, prev: Ref, stream: Option<nat>, buffer: string, cache: Cache)

  /** What `options` parses out of a buffer, by processor class. */
  function ParsedOptions(k: Kind, buf: string): Result<map<string, string>>
  {
    if k == AllstarOptions then OutputProviders.OptionsOf(buf, "WA", OutputProviders.AllstarOptionsFailure)
    else OutputProviders.OptionsOf(buf, "RE", OutputProviders.OptionsFailure)
  }

  /**
   * Only a processor that has read its segment (whose buffer no longer
   * changes) memoises, and only the properties its class has.
   */
  predicate CacheAgrees(n: Node)
  {
    (n.cache.options ==> n.stream.Some? && (n.kind == OptionListing || n.kind == AllstarOptions))
    && (n.cache.errors ==> n.stream.Some? && n.kind == PsfErrors)
    && (n.cache.data ==> n.stream.Some? && n.kind == PsfErrors)
    && (n.cache.stars ==> n.stream.Some? && n.kind == AllstarResult)
  }

  predicate CachesAgree(nodes: seq<Node>)
  {
    forall k :: 0 <= k < |nodes| ==> CacheAgrees(nodes[k])
  }

  /** An `io.StringIO`: the lines iteration yields, and how many were read. */
  datatype Stream = Stream(lines: seq<string>, pos: nat)

  datatype Arena = Arena(nodes: seq<Node>, streams: seq<Stream>)

  predicate StreamOk(st: Stream)
  {
    st.pos <= |st.lines|
  }

  /** Every index points into the arena and no stream is read past its end. */
  predicate ArenaOk(a: Arena)
  {
    (forall s :: 0 <= s < |a.streams| ==> StreamOk(a.streams[s]))
    && (forall k :: 0 <= k < |a.nodes| ==> NodeOk(a, a.nodes[k]))
  }

  predicate NodeOk(a: Arena, n: Node)
  {
    (n.stream.Some? ==> n.stream.value < |a.streams|)
    && (n.prev.Proc? ==> n.prev.index < |a.nodes|)
  }

  /** Following predecessors always ends: each one has a smaller rank. */
  ghost predicate Ranked(nodes: seq<Node>, rank: seq<nat>)
  {
    |rank| == |nodes|
    && forall k {:trigger nodes[k].prev} :: 0 <= k < |nodes| && nodes[k].prev.Proc? ==>
         nodes[k].prev.index < |nodes| && rank[nodes[k].prev.index] < rank[k]
  }

  /**
   * Index one past the line that ends a processor's segment when it starts
   * reading at `from`: just after the first last line, or the end of the stream.
   */
  function SegmentEnd(k: Kind, lines: seq<string>, from: nat): (e: nat)
    requires from <= |lines|
    ensures from <= e <= |lines|
    ensures k == Provider ==> e == from
    ensures k != Provider && from < |lines| ==> from < e
    ensures k != Provider ==> forall j :: from <= j < e - 1 ==> !IsLast(k, lines[j])
    ensures k != Provider && e < |lines| ==> from < e && IsLast(k, lines[e - 1])
    decreases |lines| - from
  {
    if k == Provider || from == |lines| then from
    else if IsLast(k, lines[from]) then from + 1
    else SegmentEnd(k, lines, from + 1)
  }

  /** A segment that stops before the end stops at its first last line. */
  lemma {:induction false} SegmentEndIsFirstLast(k: Kind, lines: seq<string>, from: nat, j: nat)
    requires k != Provider && from <= j < |lines| && IsLast(k, lines[j])
    ensures SegmentEnd(k, lines, from) <= j + 1
    decreases j - from
  {
    if !IsLast(k, lines[from]) {
      SegmentEndIsFirstLast(k, lines, from + 1, j);
    }
  }

  /** One line of a segment: it ends the segment, or the segment goes on past it. */
  lemma SegmentStep(k: Kind, lines: seq<string>, from: nat)
    requires k != Provider && from < |lines|
    ensures SegmentEnd(k, lines, from) == if IsLast(k, lines[from]) then from + 1 else SegmentEnd(k, lines, from + 1)
  {
  }

  /** What a processor of kind `k` adds to its buffer when it reads `ls`. */
  function Appended(k: Kind, ls: seq<string>): string
  {
    if Buffered(k) then Concat(ls) else ""
  }

  lemma AppendedSnoc(k: Kind, lines: seq<string>, i: nat, j: nat)
    requires i <= j < |lines|
    ensures Appended(k, lines[i..j + 1]) == Appended(k, lines[i..j]) + (if Buffered(k) then lines[j] else "")
  {
    assert lines[i..j + 1] == lines[i..j] + [lines[j]];
    ConcatSnoc(lines[i..j], lines[j]);
  }

  /**
   * The `for line in stream` loop of `OutputLinesProcessor._consume`, with the
   * `__buffer += line` of `OutputBufferedProcessor`: reads from `start` and
   * stops right after the first line `_process_line` declares last.
   */
  method ReadSegment(k: Kind, lines: seq<string>, start: nat, buffer0: string)
    returns (pos: nat, buffer: string)
    requires start <= |lines|
    ensures pos == SegmentEnd(k, lines, start)
    ensures buffer == buffer0 + Appended(k, lines[start..pos])
  {
    pos := start;
    buffer := buffer0;
    if k == Provider {
      return;
    }
    while pos < |lines|
      invariant start <= pos <= |lines|
      invariant buffer == buffer0 + Appended(k, lines[start..pos])
      invariant SegmentEnd(k, lines, start) == SegmentEnd(k, lines, pos)
      decreases |lines| - pos
    {
      var line := lines[pos];
      BufferAdvance(k, lines, start, pos, buffer0);
      SegmentAdvance(k, lines, start, pos);
      pos := pos + 1;
      if Buffered(k) {
        buffer := buffer + line;
      }
      if IsLast(k, line) {
        return;
      }
    }
  }

  /** The buffer once the line at `pos` is read: the line appended to it, for a buffered processor. */
  lemma BufferAdvance(k: Kind, lines: seq<string>, start: nat, pos: nat, buffer0: string)
    requires start <= pos < |lines|
    ensures Buffered(k) ==> buffer0 + Appended(k, lines[start..pos + 1]) == (buffer0 + Appended(k, lines[start..pos])) + lines[pos]
    ensures !Buffered(k) ==> buffer0 + Appended(k, lines[start..pos + 1]) == buffer0 + Appended(k, lines[start..pos])
  {
    AppendedSnoc(k, lines, start, pos);
    if !Buffered(k) {
      assert Appended(k, lines[start..pos + 1]) == Appended(k, lines[start..pos]) == "";
    }
  }

  /** Where the segment from `start` ends, once the line at `pos` is read. */
  lemma SegmentAdvance(k: Kind, lines: seq<string>, start: nat, pos: nat)
    requires k != Provider && start <= pos < |lines|
    requires SegmentEnd(k, lines, start) == SegmentEnd(k, lines, pos)
    ensures IsLast(k, lines[pos]) ==> SegmentEnd(k, lines, start) == pos + 1
    ensures !IsLast(k, lines[pos]) ==> SegmentEnd(k, lines, start) == SegmentEnd(k, lines, pos + 1)
  {
    SegmentStep(k, lines, pos);
  }

  /**
   * `_consume` on processor `k`, after its `__stream` is set to stream `s`:
   * the stream advances to the segment end and a buffered processor appends
   * every line it read, the terminating one included.
   */
  function ConsumeNode(a: Arena, k: nat, s: nat): (r: Arena)
    requires ArenaOk(a) && k < |a.nodes| && s < |a.streams|
    ensures ArenaOk(r)
    ensures |r.nodes| == |a.nodes| && |r.streams| == |a.streams|
    ensures r.nodes[k].stream == Some(s)
    ensures r.nodes[k].kind == a.nodes[k].kind && r.nodes[k].prev == a.nodes[k].prev
    ensures r.nodes[k].cache == a.nodes[k].cache
    ensures var st := a.streams[s]; var e := SegmentEnd(a.nodes[k].kind, st.lines, st.pos);
      r.streams[s] == st.(pos := e)
      && r.nodes[k].buffer == a.nodes[k].buffer + Appended(a.nodes[k].kind, st.lines[st.pos..e])
    ensures forall j :: 0 <= j < |a.nodes| && j != k ==> r.nodes[j] == a.nodes[j]
    ensures forall t :: 0 <= t < |a.streams| && t != s ==> r.streams[t] == a.streams[t]
  {
    var st := a.streams[s];
    var n := a.nodes[k];
    var e := SegmentEnd(n.kind, st.lines, st.pos);
    var buf := n.buffer + Appended(n.kind, st.lines[st.pos..e]);
    var r := Arena(a.nodes[k := n.(stream := Some(s), buffer := buf)], a.streams[s := st.(pos := e)]);
    assert forall j :: 0 <= j < |r.nodes| ==> NodeOk(r, r.nodes[j]) by {
      forall j | 0 <= j < |r.nodes|
        ensures NodeOk(r, r.nodes[j])
      {
        assert NodeOk(a, a.nodes[j]);
      }
    }
    r
  }

  /** The processors on `order` consume one after another from stream `s`. */
  function ConsumeInOrder(a: Arena, order: seq<nat>, s: nat): (r: Arena)
    requires ArenaOk(a) && s < |a.streams|
    requires forall j :: 0 <= j < |order| ==> order[j] < |a.nodes|
    ensures ArenaOk(r)
    ensures |r.nodes| == |a.nodes| && |r.streams| == |a.streams|
    decreases |order|
  {
    if order == [] then a else ConsumeInOrder(ConsumeNode(a, order[0], s), order[1..], s)
  }

  /** Where `_get_output_stream` of an unresolved processor stops walking back. */
  datatype Bottom = AtKeeper | AtCached(index: nat) | AtUnlinked

  /**
   * The processors whose `_get_output_stream` runs when processor `i` is
   * asked for its stream, from `i` back towards the keeper, and where the walk
   * stops: the keeper, a processor that already holds a stream, or a processor
   * with no predecessor.
   */
  function Walk(a: Arena, ghost rank: seq<nat>, i: nat): (w: (seq<nat>, Bottom))
    requires ArenaOk(a) && Ranked(a.nodes, rank) && i < |a.nodes|
    ensures w.0 == [] <==> a.nodes[i].stream.Some?
    ensures w.0 == [] ==> w.1 == AtCached(i)
    ensures w.0 != [] ==> w.0[0] == i
    ensures forall j :: 0 <= j < |w.0| ==> w.0[j] < |a.nodes| && a.nodes[w.0[j]].stream.None?
    ensures forall j :: 0 < j < |w.0| ==> a.nodes[w.0[j - 1]].prev == Proc(w.0[j])
    ensures w.0 != [] ==> BottomOf(a, w.0[|w.0| - 1]) == w.1
    ensures w.1.AtCached? ==> w.1.index < |a.nodes| && a.nodes[w.1.index].stream.Some?
    decreases rank[i]
  {
    var n := a.nodes[i];
    if n.stream.Some? then ([], AtCached(i))
    else
      match n.prev
      case Keeper => ([i], AtKeeper)
      case Unlinked => ([i], AtUnlinked)
      case Proc(j) =>
        assert NodeOk(a, n);
        var w := Walk(a, rank, j);
        ([i] + w.0, w.1)
  }

  /** Where the walk goes after the unresolved processor `k`. */
  function BottomOf(a: Arena, k: nat): Bottom
    requires ArenaOk(a) && k < |a.nodes|
  {
    match a.nodes[k].prev
    case Keeper => AtKeeper
    case Unlinked => AtUnlinked
    case Proc(j) => if j < |a.nodes| && a.nodes[j].stream.Some? then AtCached(j) else AtUnlinked
  }

  /** Processors are resolved from the far end of the walk back to the one asked. */
  function Reverse(p: seq<nat>): (r: seq<nat>)
    ensures |r| == |p|
    ensures forall j :: 0 <= j < |p| ==> r[j] == p[|p| - 1 - j]
  {
    if p == [] then [] else Reverse(p[1..]) + [p[0]]
  }

  /** The walk never visits a processor twice. */
  lemma WalkDistinct(a: Arena, rank: seq<nat>, i: nat, j1: nat, j2: nat)
    requires ArenaOk(a) && Ranked(a.nodes, rank) && i < |a.nodes|
    requires j1 < j2 < |Walk(a, rank, i).0|
    ensures Walk(a, rank, i).0[j1] != Walk(a, rank, i).0[j2]
  {
    var p := Walk(a, rank, i).0;
    assert forall j :: 0 < j < |p| ==> rank[p[j]] < rank[p[j - 1]] by {
      forall j | 0 < j < |p|
        ensures rank[p[j]] < rank[p[j - 1]]
      {
        assert a.nodes[p[j - 1]].prev == Proc(p[j]);
      }
    }
    RankDecreases(p, rank, j1, j2);
  }

  lemma {:induction false} RankDecreases(p: seq<nat>, rank: seq<nat>, j1: nat, j2: nat)
    requires forall j :: 0 <= j < |p| ==> p[j] < |rank|
    requires forall j :: 0 < j < |p| ==> rank[p[j]] < rank[p[j - 1]]
    requires j1 < j2 < |p|
    ensures rank[p[j2]] < rank[p[j1]]
    decreases j2 - j1
  {
    if j2 > j1 + 1 {
      RankDecreases(p, rank, j1, j2 - 1);
    }
  }

  /** What processor `k` added to its buffer between arenas `a` and `r`. */
  function Growth(a: Arena, r: Arena, k: nat): string
    requires k < |a.nodes| && k < |r.nodes|
  {
    var before := a.nodes[k].buffer;
    var after := r.nodes[k].buffer;
    if |before| <= |after| then after[|before|..] else ""
  }

  /** The growth of each processor on `order`, in that order. */
  function Growths(a: Arena, r: Arena, order: seq<nat>): seq<string>
    requires forall j :: 0 <= j < |order| ==> order[j] < |a.nodes| && order[j] < |r.nodes|
  {
    if order == [] then [] else [Growth(a, r, order[0])] + Growths(a, r, order[1..])
  }

  lemma {:induction false} GrowthsFrame(a: Arena, b: Arena, r: Arena, order: seq<nat>)
    requires forall j :: 0 <= j < |order| ==> order[j] < |a.nodes| && order[j] < |b.nodes| && order[j] < |r.nodes|
    requires forall j :: 0 <= j < |order| ==> a.nodes[order[j]].buffer == b.nodes[order[j]].buffer
    ensures Growths(a, r, order) == Growths(b, r, order)
  {
    if order != [] {
      GrowthsFrame(a, b, r, order[1..]);
    }
  }

  predicate Distinct(order: seq<nat>)
  {
    forall j1, j2 :: 0 <= j1 < j2 < |order| ==> order[j1] != order[j2]
  }

  /** Processors not in the order are left as they were. */
  lemma {:induction false} ConsumeInOrderFrame(a: Arena, order: seq<nat>, s: nat, k: nat)
    requires ArenaOk(a) && s < |a.streams|
    requires forall j :: 0 <= j < |order| ==> order[j] < |a.nodes|
    requires k < |a.nodes| && k !in order
    ensures ConsumeInOrder(a, order, s).nodes[k] == a.nodes[k]
    decreases |order|
  {
    if order != [] {
      ConsumeInOrderFrame(ConsumeNode(a, order[0], s), order[1..], s, k);
    }
  }

  /** The stream only moves forward, and keeps its lines. */
  lemma {:induction false} ConsumeInOrderAdvances(a: Arena, order: seq<nat>, s: nat)
    requires ArenaOk(a) && s < |a.streams|
    requires forall j :: 0 <= j < |order| ==> order[j] < |a.nodes|
    ensures var r := ConsumeInOrder(a, order, s);
      a.streams[s].pos <= r.streams[s].pos && r.streams[s].lines == a.streams[s].lines
    decreases |order|
  {
    if order != [] {
      ConsumeInOrderAdvances(ConsumeNode(a, order[0], s), order[1..], s);
    }
  }

  /** The first processor's growth is the segment it read. */
  lemma GrowthOfFirst(a: Arena, order: seq<nat>, s: nat)
    requires ArenaOk(a) && s < |a.streams|
    requires forall j :: 0 <= j < |order| ==> order[j] < |a.nodes|
    requires order != [] && order[0] !in order[1..] && Buffered(a.nodes[order[0]].kind)
    ensures var b := ConsumeNode(a, order[0], s);
      var st := a.streams[s];
      Growth(a, ConsumeInOrder(a, order, s), order[0]) == Concat(st.lines[st.pos..b.streams[s].pos])
  {
    var k := order[0];
    var b := ConsumeNode(a, k, s);
    ConsumeInOrderFrame(b, order[1..], s, k);
  }

  /**
   * In-order, strict segmentation: when buffered processors consume one after
   * another, what they add to their buffers, read in consumption order, is
   * exactly the text the stream advanced over.
   */
  lemma {:induction false} ConsumeInOrderPartitions(a: Arena, order: seq<nat>, s: nat)
    requires ArenaOk(a) && s < |a.streams|
    requires forall j :: 0 <= j < |order| ==> order[j] < |a.nodes| && Buffered(a.nodes[order[j]].kind)
    requires Distinct(order)
    ensures var r := ConsumeInOrder(a, order, s);
      var st := a.streams[s];
      st.pos <= r.streams[s].pos && r.streams[s].lines == st.lines
      && Concat(Growths(a, r, order)) == Concat(st.lines[st.pos..r.streams[s].pos])
    decreases |order|
  {
    ConsumeInOrderAdvances(a, order, s);
    if order == [] {
      var st := a.streams[s];
      assert st.lines[st.pos..st.pos] == [];
    } else {
      RestStillBuffered(a, order, s);
      ConsumeInOrderPartitions(ConsumeNode(a, order[0], s), order[1..], s);
      PartitionStep(a, order, s);
    }
  }

  /** After the first processor consumed, the rest of the order still qualifies. */
  lemma RestStillBuffered(a: Arena, order: seq<nat>, s: nat)
    requires ArenaOk(a) && s < |a.streams|
    requires forall j :: 0 <= j < |order| ==> order[j] < |a.nodes| && Buffered(a.nodes[order[j]].kind)
    requires Distinct(order) && order != []
    ensures var b := ConsumeNode(a, order[0], s);
      && (forall j :: 0 <= j < |order[1..]| ==> order[1..][j] < |b.nodes| && Buffered(b.nodes[order[1..][j]].kind))
      && Distinct(order[1..])
      && (forall j :: 0 < j < |order| ==> order[j] != order[0])
  {
    var rest := order[1..];
    forall j | 0 <= j < |rest|
      ensures rest[j] == order[j + 1]
    {
    }
  }

  lemma ConsumeNodeKeepsRest(a: Arena, order: seq<nat>, s: nat)
    requires ArenaOk(a) && s < |a.streams|
    requires forall j :: 0 <= j < |order| ==> order[j] < |a.nodes|
    requires order != [] && forall j :: 0 < j < |order| ==> order[j] != order[0]
    ensures forall j :: 0 <= j < |order| - 1 ==>
      a.nodes[order[1..][j]] == ConsumeNode(a, order[0], s).nodes[order[1..][j]]
  {
    var rest := order[1..];
    forall j | 0 <= j < |rest|
      ensures a.nodes[rest[j]] == ConsumeNode(a, order[0], s).nodes[rest[j]]
    {
      assert rest[j] == order[j + 1];
    }
  }

  /** One step of `ConsumeInOrderPartitions`: the first segment, then the rest. */
  lemma PartitionStep(a: Arena, order: seq<nat>, s: nat)
    requires ArenaOk(a) && s < |a.streams|
    requires forall j :: 0 <= j < |order| ==> order[j] < |a.nodes| && Buffered(a.nodes[order[j]].kind)
    requires order != [] && forall j :: 0 < j < |order| ==> order[j] != order[0]
    requires var b := ConsumeNode(a, order[0], s);
      var r := ConsumeInOrder(b, order[1..], s);
      b.streams[s].pos <= r.streams[s].pos && r.streams[s].lines == b.streams[s].lines
      && Concat(Growths(b, r, order[1..])) == Concat(b.streams[s].lines[b.streams[s].pos..r.streams[s].pos])
    ensures var r := ConsumeInOrder(a, order, s);
      var st := a.streams[s];
      Concat(Growths(a, r, order)) == Concat(st.lines[st.pos..r.streams[s].pos])
  {
    var k := order[0];
    var b := ConsumeNode(a, k, s);
    var rest := order[1..];
    var r := ConsumeInOrder(b, rest, s);
    assert r == ConsumeInOrder(a, order, s);
    var st := a.streams[s];
    var e := b.streams[s].pos;
    var f := r.streams[s].pos;
    assert st.pos <= e && b.streams[s].lines == st.lines;
    var g := Growth(a, r, k);
    var gs := Growths(b, r, rest);
    assert Growths(a, r, order) == [g] + gs by {
      ConsumeNodeKeepsRest(a, order, s);
      GrowthsFrame(a, b, r, rest);
    }
    assert g == Concat(st.lines[st.pos..e]) by {
      GrowthOfFirst(a, order, s);
    }
    assert Concat([g] + gs) == g + Concat(gs) by {
      ConcatAppend([g], gs);
      assert Concat([g]) == g + Concat([]);
    }
    ConcatSplit(st.lines, st.pos, e, f);
  }

  /** Memoised values stay true to their buffers while unresolved processors consume. */
  lemma {:induction false} ConsumeInOrderCaches(a: Arena, order: seq<nat>, s: nat)
    requires ArenaOk(a) && s < |a.streams|
    requires forall j :: 0 <= j < |order| ==> order[j] < |a.nodes| && a.nodes[order[j]].stream.None?
    requires Distinct(order) && CachesAgree(a.nodes)
    ensures CachesAgree(ConsumeInOrder(a, order, s).nodes)
    decreases |order|
  {
    if order != [] {
      var k := order[0];
      var b := ConsumeNode(a, k, s);
      assert CacheAgrees(a.nodes[k]);
      assert CacheAgrees(b.nodes[k]);
      assert CachesAgree(b.nodes) by {
        forall j | 0 <= j < |b.nodes|
          ensures CacheAgrees(b.nodes[j])
        {
          if j != k {
            assert CacheAgrees(a.nodes[j]);
          }
        }
      }
      var rest := order[1..];
      forall j | 0 <= j < |rest|
        ensures rest[j] < |b.nodes| && b.nodes[rest[j]].stream.None?
      {
        assert rest[j] == order[j + 1] && order[j + 1] != k;
      }
      assert Distinct(rest) by {
        forall j1, j2 | 0 <= j1 < j2 < |rest|
          ensures rest[j1] != rest[j2]
        {
          assert rest[j1] == order[j1 + 1] && rest[j2] == order[j2 + 1];
        }
      }
      ConsumeInOrderCaches(b, rest, s);
    }
  }

  /** Walked back from the far end, the walk still visits each processor once. */
  lemma ReverseDistinct(p: seq<nat>)
    requires Distinct(p)
    ensures Distinct(Reverse(p))
  {
    var r := Reverse(p);
    forall j1, j2 | 0 <= j1 < j2 < |r|
      ensures r[j1] != r[j2]
    {
      assert r[j1] == p[|p| - 1 - j1] && r[j2] == p[|p| - 1 - j2];
    }
  }

  /** Reversing twice gives back the order. */
  lemma ReverseReverse(p: seq<nat>)
    ensures Reverse(Reverse(p)) == p
  {
    var r := Reverse(Reverse(p));
    assert forall j :: 0 <= j < |p| ==> r[j] == Reverse(p)[|p| - 1 - j] == p[j];
  }

  /** Consumption changes no processor's class, predecessor or memoised values. */
  lemma {:induction false} ConsumeInOrderKeeps(a: Arena, order: seq<nat>, s: nat)
    requires ArenaOk(a) && s < |a.streams|
    requires forall j :: 0 <= j < |order| ==> order[j] < |a.nodes|
    ensures var r := ConsumeInOrder(a, order, s);
      forall k :: 0 <= k < |a.nodes| ==>
        r.nodes[k].kind == a.nodes[k].kind && r.nodes[k].prev == a.nodes[k].prev
        && r.nodes[k].cache == a.nodes[k].cache
    decreases |order|
  {
    if order != [] {
      ConsumeInOrderKeeps(ConsumeNode(a, order[0], s), order[1..], s);
    }
  }

  /**
   * The processors of `b` include those of `a`, each with the class, stream,
   * buffer and memoised values it had; only predecessors may have been re-pointed.
   */
  predicate Kept(a: seq<Node>, b: seq<Node>)
  {
    |a| <= |b|
    && forall k :: 0 <= k < |a| ==>
         b[k].kind == a[k].kind && b[k].stream == a[k].stream
         && b[k].buffer == a[k].buffer && b[k].cache == a[k].cache
  }

  /**
   * `chain` is a chain as the runner builds it: the first processor follows
   * the keeper and every other one follows the processor before it.
   */
  predicate Linked(nodes: seq<Node>, chain: seq<nat>)
  {
    (forall j :: 0 <= j < |chain| ==> chain[j] < |nodes|)
    && (chain != [] ==> nodes[chain[0]].prev == Keeper)
    && (forall j {:trigger nodes[chain[j]]} :: 0 < j < |chain| ==> nodes[chain[j]].prev == Proc(chain[j - 1]))
  }

  /**
   * Asked for its stream, the last processor of an unresolved chain walks the
   * whole chain back to the keeper.
   */
  lemma {:induction false} WalkLinked(a: Arena, rank: seq<nat>, chain: seq<nat>)
    requires ArenaOk(a) && Ranked(a.nodes, rank) && Linked(a.nodes, chain) && chain != []
    requires forall j :: 0 <= j < |chain| ==> a.nodes[chain[j]].stream.None?
    ensures Walk(a, rank, chain[|chain| - 1]) == (Reverse(chain), AtKeeper)
    decreases |chain|
  {
    var last := chain[|chain| - 1];
    if |chain| > 1 {
      var init := chain[..|chain| - 1];
      assert Linked(a.nodes, init) by {
        forall j | 0 < j < |init|
          ensures a.nodes[init[j]].prev == Proc(init[j - 1])
        {
          assert init[j] == chain[j] && init[j - 1] == chain[j - 1];
          assert a.nodes[chain[j]].prev == Proc(chain[j - 1]);
        }
      }
      WalkLinked(a, rank, init);
      assert a.nodes[last].prev == Proc(init[|init| - 1]);
      var w := Walk(a, rank, last).0;
      assert Walk(a, rank, last) == ([last] + Walk(a, rank, init[|init| - 1]).0, Walk(a, rank, init[|init| - 1]).1);
      assert w == [last] + Reverse(init);
      InitLast(chain);
      ReverseSnoc(init, last);
    } else {
      assert chain[1..] == [] && Reverse(chain[1..]) == [];
      assert Reverse(chain) == [chain[0]];
      assert last == chain[0] && a.nodes[last].prev == Keeper;
      assert Walk(a, rank, last) == ([last], AtKeeper);
    }
  }

  /** The last element goes first. */
  lemma ReverseSnoc(p: seq<nat>, x: nat)
    ensures Reverse(p + [x]) == [x] + Reverse(p)
  {
    var r, q := Reverse(p + [x]), [x] + Reverse(p);
    assert |r| == |q|;
    forall j | 0 <= j < |r|
      ensures r[j] == q[j]
    {
      if j > 0 {
        assert q[j] == Reverse(p)[j - 1] == p[|p| - j];
        assert r[j] == (p + [x])[|p| - j];
      }
    }
  }

  lemma ConcatSplit(lines: seq<string>, p: nat, e: nat, f: nat)
    requires p <= e <= f <= |lines|
    ensures Concat(lines[p..f]) == Concat(lines[p..e]) + Concat(lines[e..f])
  {
    assert lines[p..f] == lines[p..e] + lines[e..f];
    ConcatAppend(lines[p..e], lines[e..f]);
  }

  /**
   * The processors after a new one of class `kind` goes in front of `head`:
   * the new one follows the keeper and `head` now follows the new one.
   */
  function InFront(nodes: seq<Node>, kind: Kind, head: Option<nat>): (r: seq<Node>)
    requires head.Some? ==> head.value < |nodes|
    ensures |r| == |nodes| + 1 && r[|nodes|] == Node(kind, Keeper, None, "", NoCache)
    ensures forall j :: 0 <= j < |nodes| && Some(j) != head ==> r[j] == nodes[j]
    ensures head.Some? ==> r[head.value] == nodes[head.value].(prev := Proc(|nodes|))
  {
    var added := nodes + [Node(kind, Keeper, None, "", NoCache)];
    if head.Some? then added[head.value := added[head.value].(prev := Proc(|nodes|))] else added
  }

  /** Consumption moves streams forward but never changes their lines. */
  lemma {:induction false} ConsumeInOrderLines(a: Arena, order: seq<nat>, s: nat)
    requires ArenaOk(a) && s < |a.streams|
    requires forall j :: 0 <= j < |order| ==> order[j] < |a.nodes|
    ensures var r := ConsumeInOrder(a, order, s);
      forall t :: 0 <= t < |a.streams| ==> r.streams[t].lines == a.streams[t].lines
    decreases |order|
  {
    if order != [] {
      ConsumeInOrderLines(ConsumeNode(a, order[0], s), order[1..], s);
    }
  }

  /** `r` is what the processors on `order`, consuming one after another from stream `s`, make of `a`. */
  ghost predicate ResolvedBy(a: Arena, order: seq<nat>, s: nat, r: Arena)
  {
    ArenaOk(a) && s < |a.streams| && (forall j :: 0 <= j < |order| ==> order[j] < |a.nodes|)
    && r == ConsumeInOrder(a, order, s)
  }

  /** Consuming a processor gives it the stream, and a processor that has its stream keeps it. */
  lemma {:induction false} ConsumeInOrderResolves(a: Arena, order: seq<nat>, s: nat, k: nat)
    requires ArenaOk(a) && s < |a.streams| && k < |a.nodes|
    requires forall j :: 0 <= j < |order| ==> order[j] < |a.nodes|
    requires k in order || a.nodes[k].stream == Some(s)
    ensures ConsumeInOrder(a, order, s).nodes[k].stream == Some(s)
    decreases |order|
  {
    if order == [] {
    } else {
      var b := ConsumeNode(a, order[0], s);
      assert k in order[1..] || b.nodes[k].stream == Some(s);
      ConsumeInOrderResolves(b, order[1..], s, k);
    }
  }

  /**
   * The processor objects and streams of one program run, and the stream held
   * by the (single) `StreamKeeper` of a chain.
   */
  class Processors {
    var nodes: seq<Node>
    var streams: seq<Stream>
    var keeperStream: Option<nat>
    ghost var rank: seq<nat>

    /** Every index points into the arena and predecessors are ranked. */
    ghost predicate Shape()
      reads this
    {
      ArenaOk(Arena(nodes, streams)) && Ranked(nodes, rank)
      && (keeperStream.Some? ==> keeperStream.value < |streams|)
    }

    ghost predicate Valid()
      reads this
    {
      Shape() && CachesAgree(nodes)
    }

    function State(): Arena
      reads this
    {
      Arena(nodes, streams)
    }

    constructor()
      ensures Valid()
      ensures nodes == [] && streams == [] && keeperStream == None
    {
      nodes := [];
      streams := [];
      keeperStream := None;
      rank := [];
    }

    /** A new processor of class `kind` placed after `prev`. */
    method Add(kind: Kind, prev: Ref) returns (k: nat)
      requires Valid()
      requires prev.Proc? ==> prev.index < |nodes|
      modifies this
      ensures Valid()
      ensures k == |old(nodes)|
      ensures nodes == old(nodes) + [Node(kind, prev, None, "", NoCache)]
      ensures streams == old(streams) && keeperStream == old(keeperStream)
    {
      k := |nodes|;
      var n := Node(kind, prev, None, "", NoCache);
      nodes := nodes + [n];
      rank := rank + [if prev.Proc? then rank[prev.index] + 1 else 0];
      assert NodeOk(Arena(nodes, streams), n);
      assert CacheAgrees(n);
      assert CachesAgree(nodes) by {
        forall j | 0 <= j < |nodes|
          ensures CacheAgrees(nodes[j])
        {
          if j < k {
            assert CacheAgrees(old(nodes)[j]);
          }
        }
      }
      assert forall j :: 0 <= j < k ==> NodeOk(Arena(nodes, streams), nodes[j]) by {
        forall j | 0 <= j < k
          ensures NodeOk(Arena(nodes, streams), nodes[j])
        {
          assert NodeOk(Arena(old(nodes), streams), old(nodes)[j]);
        }
      }
    }

    /**
     * A new processor that goes in front of the processor `head`, which is
     * re-pointed to it; the new one follows the keeper.
     */
    method AddInFront(kind: Kind, head: Option<nat>) returns (k: nat)
      requires Valid()
      requires head.Some? ==> head.value < |nodes|
      modifies this
      ensures Valid()
      ensures k == |old(nodes)|
      ensures nodes == InFront(old(nodes), kind, head)
      ensures streams == old(streams) && keeperStream == old(keeperStream)
    {
      k := |nodes|;
      var n := Node(kind, Keeper, None, "", NoCache);
      // every rank moves up by one so that the new processor ranks below all others
      ghost var r0 := rank;
      rank := seq(|r0|, j requires 0 <= j < |r0| => r0[j] + 1) + [0];
      nodes := nodes + [n];
      assert Ranked(nodes, rank) by {
        forall j | 0 <= j < |nodes| && nodes[j].prev.Proc?
          ensures nodes[j].prev.index < |nodes| && rank[nodes[j].prev.index] < rank[j]
        {
          assert j < k && nodes[j] == old(nodes)[j];
        }
      }
      assert Valid() by {
        assert forall j :: 0 <= j < |nodes| ==> NodeOk(Arena(nodes, streams), nodes[j]) by {
          forall j | 0 <= j < |nodes|
            ensures NodeOk(Arena(nodes, streams), nodes[j])
          {
            if j < k {
              assert NodeOk(Arena(old(nodes), streams), old(nodes)[j]);
            }
          }
        }
      }
      assert CacheAgrees(n);
      assert CachesAgree(nodes) by {
        forall j | 0 <= j < |nodes|
          ensures CacheAgrees(nodes[j])
        {
          if j < k {
            assert CacheAgrees(old(nodes)[j]);
          }
        }
      }
      if head.Some? {
        var h := head.value;
        ghost var before := nodes;
        nodes := nodes[h := nodes[h].(prev := Proc(k))];
        assert rank[k] < rank[h];
        assert CacheAgrees(before[h]);
        assert CachesAgree(nodes) by {
          forall j | 0 <= j < |nodes|
            ensures CacheAgrees(nodes[j])
          {
            assert CacheAgrees(before[j]);
          }
        }
        assert forall j :: 0 <= j < |nodes| ==> NodeOk(Arena(nodes, streams), nodes[j]) by {
          forall j | 0 <= j < |nodes|
            ensures NodeOk(Arena(nodes, streams), nodes[j])
          {
            if j < k && j != h {
              assert NodeOk(Arena(old(nodes), streams), old(nodes)[j]);
            }
          }
        }
      }
    }

    /** A new `io.StringIO(text)`. */
    method Open(text: string) returns (s: nat)
      requires Valid()
      modifies this
      ensures Valid()
      ensures s == |old(streams)|
      ensures streams == old(streams) + [Stream(SplitLines(text), 0)]
      ensures nodes == old(nodes) && keeperStream == old(keeperStream)
    {
      s := |streams|;
      streams := streams + [Stream(SplitLines(text), 0)];
      assert forall j :: 0 <= j < |nodes| ==> NodeOk(Arena(nodes, streams), nodes[j]) by {
        forall j | 0 <= j < |nodes|
          ensures NodeOk(Arena(nodes, streams), nodes[j])
        {
          assert NodeOk(Arena(nodes, old(streams)), nodes[j]);
        }
      }
    }

    method SetKeeperStream(s: Option<nat>)
      requires Valid()
      requires s.Some? ==> s.value < |streams|
      modifies this
      ensures Valid()
      ensures keeperStream == s && nodes == old(nodes) && streams == old(streams)
    {
      keeperStream := s;
    }

    /** Marks the properties in `c` as memoised. */
    method SetCache(k: nat, c: Cache)
      requires Valid() && k < |nodes|
      requires CacheAgrees(nodes[k].(cache := c))
      modifies this
      ensures Valid()
      ensures nodes == old(nodes)[k := old(nodes)[k].(cache := c)]
      ensures streams == old(streams) && keeperStream == old(keeperStream)
    {
      nodes := nodes[k := nodes[k].(cache := c)];
      assert forall j :: 0 <= j < |nodes| ==> NodeOk(Arena(nodes, streams), nodes[j]) by {
        forall j | 0 <= j < |nodes|
          ensures NodeOk(Arena(nodes, streams), nodes[j])
        {
          assert NodeOk(Arena(old(nodes), streams), old(nodes)[j]);
        }
      }
      assert CachesAgree(nodes) by {
        forall j | 0 <= j < |nodes|
          ensures CacheAgrees(nodes[j])
        {
          if j != k {
            assert CacheAgrees(old(nodes)[j]);
          }
        }
      }
    }

    /**
     * `self.__stream = <stream s>; self._consume(self.__stream)` for
     * processor `k`.
     */
    method Consume(k: nat, s: nat)
      requires Shape() && k < |nodes| && s < |streams|
      modifies this
      ensures Shape()
      ensures State() == ConsumeNode(old(State()), k, s)
      ensures keeperStream == old(keeperStream)
    {
      var n := nodes[k];
      var st := streams[s];
      var pos, buffer := ReadSegment(n.kind, st.lines, st.pos, n.buffer);
      ghost var r := ConsumeNode(old(State()), k, s);
      nodes := nodes[k := n.(stream := Some(s), buffer := buffer)];
      streams := streams[s := st.(pos := pos)];
      assert r.nodes == nodes && r.streams == streams;
    }

    /**
     * The unresolved processors on `order`, each listed once, consume from
     * stream `s`, one after another.
     */
    method ConsumeAll(order: seq<nat>, s: nat)
      requires Valid() && s < |streams|
      requires forall j :: 0 <= j < |order| ==> order[j] < |nodes| && nodes[order[j]].stream.None?
      requires Distinct(order)
      modifies this
      ensures Valid()
      ensures State() == ConsumeInOrder(old(State()), order, s)
      ensures keeperStream == old(keeperStream)
    {
      ConsumeInOrderCaches(State(), order, s);
      var i := 0;
      while i < |order|
        invariant 0 <= i <= |order|
        invariant Shape() && |nodes| == |old(nodes)| && |streams| == |old(streams)|
        invariant keeperStream == old(keeperStream)
        invariant ConsumeInOrder(old(State()), order, s) == ConsumeInOrder(State(), order[i..], s)
      {
        assert order[i..][1..] == order[i + 1..];
        Consume(order[i], s);
        i := i + 1;
      }
      assert order[i..] == [];
    }
  }
}
