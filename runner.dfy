/**
 * The ALLSTAR runner: `astwro.pydaophot.Runner` (the base class that owns the
 * process, the command script, the runner directory and the output-processor
 * chain) together with the hooks and commands `Allstar` adds to it.
 *
 * The program itself is the oracle `exec`: given the runner directory, the
 * script fed to standard input and the files, it gives the output, the error
 * text, the exit code and the files afterwards.
 */
module Runners {
  import opened Common
  import opened Paths
  import opened FileSystem
  import opened TempDirs
  import opened OutputChain
  import OutputProviders
  import opened AllstarText
  import opened RunnerFiles

  /**
   * One execution of the program. The output and the error text are the
   * bytes the program wrote, each read as the character with that code.
   */
  datatype Launch = Launch(output: string, stderr: string, returncode: int, tree: Tree)

  /** `s.encode('ascii')` and `b.decode('ascii')` succeed exactly when every code is below 128. */
  predicate IsAscii(s: string)
  {
    forall i :: 0 <= i < |s| ==> s[i] as int < 128
  }

  /**
   * The position the `'ascii'` codec reports: the first code at or above
   * 128, or `|s|` when there is none.
   */
  function FirstNonAscii(s: string): (r: nat)
    ensures r <= |s|
    ensures forall i :: 0 <= i < r ==> s[i] as int < 128
    ensures r < |s| ==> s[r] as int >= 128
    ensures r == |s| <==> IsAscii(s)
  {
    if s == [] then 0
    else if s[0] as int >= 128 then 0
    else 1 + FirstNonAscii(s[1..])
  }

  /** What `_insert_processing_step` is given as `output_processor`. */
  datatype StepProcessor = NoProcessor | ProviderOf(kind: Kind) | NotAProvider

  const NotProviderMessage := "output_processor must OutputProvider subclass"
  const NoStreamMessage := "No output stream available, call run() before collecting results."
  const NoPrevMessage := "'NoneType' object has no attribute '_get_output_stream'"
  const NoAllstarMessage := "Add ALlstar command before run."
  const AllstarOpt := "allstar.opt"
  const PrevKeyword := "prev_in_chain"
  const UnhashableMessage := "unhashable type"

  /** Building an output processor: `OutputProvider.__init__` takes `prev_in_chain` and nothing else. */
  function NewProcessor(kind: Kind, keywords: seq<string>): (r: Result<Kind>)
    ensures r.Ok? <==> forall j :: 0 <= j < |keywords| ==> keywords[j] == PrevKeyword
    ensures r.Ok? ==> r.value == kind
    ensures r.Err? ==> r.error.TypeError?
    decreases |keywords|
  {
    if keywords == [] then Ok(kind)
    else if keywords[0] != PrevKeyword then
      Err(TypeError(UnexpectedKeyword(keywords[0])))
    else
      var r := NewProcessor(kind, keywords[1..]);
      assert forall j :: 1 <= j < |keywords| ==> keywords[j] == keywords[1..][j - 1];
      r
  }

  function UnexpectedKeyword(k: string): string
  {
    "__init__() got an unexpected keyword argument '" + k + "'"
  }

  const AllstarResultKeywords := ["profile_photometry_file", "subtracted_image_file"]

  /** The `AsOp_result(profile_photometry_file=..., subtracted_image_file=...)` of `ALlstar`. */
  function AllstarProcessorAsWritten(): Result<Kind>
  {
    NewProcessor(AllstarResult, AllstarResultKeywords)
  }

  /** As written, `ALlstar` can never build its result processor. */
  lemma AllstarProcessorAsWrittenFails()
    ensures AllstarProcessorAsWritten() == Err(TypeError(UnexpectedKeyword("profile_photometry_file")))
  {
    var k := AllstarResultKeywords[0];
    assert k == "profile_photometry_file";
    assert k[2] != PrevKeyword[2];
  }

  /** The result processor `ALlstar` evidently means: an `AsOp_result` built without arguments. */
  function AllstarProcessor(): (r: Result<Kind>)
    ensures r == Ok(AllstarResult)
  {
    NewProcessor(AllstarResult, [])
  }

  /**
   * The chain references as `_insert_processing_step` keeps them: `chain` lists
   * the processors appended since the last reset, each following the one
   * before it and the first following the keeper; the tail is the last of
   * them (the keeper when there are none). The head is the first of them,
   * unless a processor was put in front of an empty chain (`detached`): then
   * the head is a processor outside `chain`, since the tail was left at the
   * keeper.
   */
  ghost predicate ChainOk(nodes: seq<Node>, chain: seq<nat>, head: Option<nat>, tail: Ref, detached: bool)
  {
    Linked(nodes, chain) && Distinct(chain)
    && tail == (if chain == [] then Keeper else Proc(chain[|chain| - 1]))
    && (!detached ==> head == (if chain == [] then None else Some(chain[0])))
    && (detached ==> head.Some? && head.value < |nodes| && head.value !in chain)
  }

  /** Appending a processor after the tail keeps the chain well formed, with the new one last. */
  lemma ChainAppend(nodes: seq<Node>, chain: seq<nat>, head: Option<nat>, tail: Ref, detached: bool, kind: Kind)
    requires ChainOk(nodes, chain, head, tail, detached)
    ensures var k := |nodes|;
      ChainOk(nodes + [Node(kind, tail, None, "", NoCache)], chain + [k],
              if head.None? then Some(k) else head, Proc(k), detached)
  {
    var k := |nodes|;
    var nodes' := nodes + [Node(kind, tail, None, "", NoCache)];
    var chain' := chain + [k];
    assert forall j :: 0 <= j < |chain| ==> chain'[j] == chain[j] && nodes'[chain[j]] == nodes[chain[j]];
    assert Linked(nodes', chain');
  }

  /** Putting a processor in front of the head keeps the chain well formed. */
  lemma ChainPrepend(nodes: seq<Node>, chain: seq<nat>, head: Option<nat>, tail: Ref, detached: bool, kind: Kind)
    requires ChainOk(nodes, chain, head, tail, detached)
    ensures head.Some? ==> head.value < |nodes|
    ensures var k := |nodes|;
      ChainOk(InFront(nodes, kind, head), if !detached && chain != [] then [k] + chain else chain,
                 Some(k), tail, detached || chain == [])
  {
    if !detached && chain != [] {
      assert [|nodes|] + chain != [];
      PrependLinked(nodes, chain, kind);
      assert ([|nodes|] + chain)[|chain|] == chain[|chain| - 1];
    } else {
      assert forall j :: 0 <= j < |chain| ==> Some(chain[j]) != head;
      AsideLinked(nodes, chain, head, kind);
    }
  }

  /** The new processor in front of a non-empty chain becomes its first. */
  lemma PrependLinked(nodes: seq<Node>, chain: seq<nat>, kind: Kind)
    requires Linked(nodes, chain) && Distinct(chain) && chain != []
    ensures Linked(InFront(nodes, kind, Some(chain[0])), [|nodes|] + chain)
    ensures Distinct([|nodes|] + chain)
  {
    var k := |nodes|;
    var nodes' := InFront(nodes, kind, Some(chain[0]));
    var chain' := [k] + chain;
    assert forall j :: 1 <= j < |chain'| ==> chain'[j] == chain[j - 1];
    forall j | 1 < j < |chain'|
      ensures nodes'[chain'[j]].prev == Proc(chain'[j - 1])
    {
      assert chain'[j] == chain[j - 1] && chain[j - 1] != chain[0];
    }
  }

  /** A chain the re-pointed processor is not part of keeps its links. */
  lemma AsideLinked(nodes: seq<Node>, chain: seq<nat>, head: Option<nat>, kind: Kind)
    requires Linked(nodes, chain) && (head.Some? ==> head.value < |nodes|)
    requires forall j :: 0 <= j < |chain| ==> Some(chain[j]) != head
    ensures Linked(InFront(nodes, kind, head), chain)
  {
    var nodes' := InFront(nodes, kind, head);
    assert forall j :: 0 <= j < |chain| ==> nodes'[chain[j]] == nodes[chain[j]];
  }

  /** Re-pointing nothing, consuming and memoising leave the chain as it was. */
  lemma ChainKept(nodes: seq<Node>, nodes': seq<Node>, chain: seq<nat>, head: Option<nat>, tail: Ref, detached: bool)
    requires ChainOk(nodes, chain, head, tail, detached)
    requires |nodes| <= |nodes'| && forall j :: 0 <= j < |nodes| ==> nodes'[j].prev == nodes[j].prev
    ensures ChainOk(nodes', chain, head, tail, detached)
  {
  }

  /** A chain of unresolved processors, asked from its tail, is read in order from the keeper's stream. */
  lemma TailWalksChain(a: Arena, rank: seq<nat>, chain: seq<nat>, head: Option<nat>, tail: Ref)
    requires ArenaOk(a) && Ranked(a.nodes, rank) && ChainOk(a.nodes, chain, head, tail, false)
    requires tail.Proc? && forall j :: 0 <= j < |chain| ==> a.nodes[chain[j]].stream.None?
    ensures tail.index < |a.nodes|
    ensures Walk(a, rank, tail.index) == (Reverse(chain), AtKeeper)
    ensures Reverse(Walk(a, rank, tail.index).0) == chain
  {
    WalkLinked(a, rank, chain);
    ReverseReverse(chain);
  }

  /** `set_options(options, value)`: a file name, a list of pairs or a `dict`. */
  datatype OptArg = OptText(text: string) | OptList(pairs: OptDict) | OptMap(entries: OptDict)

  /**
   * The fields `_reset` and the run cycle change, as one value. `process`
   * is what the started process reads from its standard input.
   */
  datatype RunStatus = RunStatus(commands: string, process: Option<string>, output: Option<string>,
                           stderr: Option<string>, returncode: Option<int>, extOutputFiles: seq<string>,
                           head: Option<nat>, tail: Ref, optionResult: Option<nat>, allstarsResult: Option<nat>)

  const Idle := RunStatus("", None, None, None, None, [], None, Keeper, None, None)

  /** The fields the user sets, which the run cycle leaves alone. */
  datatype UserSettings = UserSettings(batchMode: bool, raiseOnNonzeroExitcode: bool, image: Option<string>, options: OptDict)

  /** The processors of `b` keep the classes and memoised values they had in `a`. */
  predicate KindsKept(a: seq<Node>, b: seq<Node>)
  {
    |a| <= |b| && forall k :: 0 <= k < |a| ==> b[k].kind == a[k].kind && b[k].cache == a[k].cache
  }

  /** The processors of `b` keep the classes they had in `a`. */
  predicate ClassesKept(a: seq<Node>, b: seq<Node>)
  {
    |a| <= |b| && forall k :: 0 <= k < |a| ==> b[k].kind == a[k].kind
  }

  /** Putting a processor in front re-points one predecessor and keeps everything else. */
  lemma InFrontKept(nodes: seq<Node>, kind: Kind, head: Option<nat>)
    requires head.Some? ==> head.value < |nodes|
    ensures Kept(nodes, InFront(nodes, kind, head))
  {
  }

  /**
   * The run-cycle fields agree with each other and with the processors: the
   * option and result processors exist and have the right classes, output
   * is only collected from a started process, the error text is only kept
   * with the output, and the error text, exit code and keeper's stream are
   * set together.
   */
  ghost predicate StatusOk(st: RunStatus, a: Arena, keeper: Option<nat>)
  {
    (st.optionResult.Some? ==>
       st.optionResult.value < |a.nodes| && a.nodes[st.optionResult.value].kind == AllstarOptions)
    && (st.allstarsResult.Some? ==>
          st.allstarsResult.value < |a.nodes| && a.nodes[st.allstarsResult.value].kind == AllstarResult)
    && (st.output.Some? ==> st.process.Some?)
    && (st.stderr.Some? ==> st.output.Some?) && (st.stderr.Some? <==> st.returncode.Some?)
    && (st.stderr.Some? <==> keeper.Some?)
    && (keeper.Some? ==> keeper.value < |a.streams|)
    && NoDuplicates(st.extOutputFiles)
  }

  /** Adding processors and re-pointing predecessors keep the run-cycle fields consistent. */
  lemma StatusKept(st: RunStatus, a: Arena, b: Arena, keeper: Option<nat>)
    requires StatusOk(st, a, keeper) && ClassesKept(a.nodes, b.nodes) && b.streams == a.streams
    ensures StatusOk(st, b, keeper)
  {
  }

  /** The run-cycle fields once the output of launch `l` is collected. */
  function Collected(st: RunStatus, l: Launch): RunStatus
  {
    st.(output := Some(l.output), stderr := Some(l.stderr), returncode := Some(l.returncode))
  }

  /**
   * What collecting launch `l` leaves in the files and raises: a negative
   * exit code raises `ExitError` when the runner is set to raise, and nothing
   * is copied back; otherwise the outside output files are copied back.
   */
  function CollectFiles(raise: bool, l: Launch, env: Env, md5: string -> Digest, dirPath: string,
                        files: seq<string>): (r: (Tree, Outcome))
    ensures r.1.Fail? ==> r.1.error.ExitError? || r.1.error.OSError?
  {
    if l.returncode < 0 && raise then (l.tree, Fail(ExitError(l.returncode)))
    else CopyBackIn(l.tree, env, md5, dirPath, files)
  }

  /**
   * What `__communicate` leaves once launch `l` has run, from the run-cycle
   * fields `st`, the streams `ss` and the keeper's stream `keeper` to `st'`,
   * `ss'`, `keeper'`, the files `tree'` and the outcome `o`. Output that is
   * not ASCII raises `UnicodeDecodeError` before anything is kept; ASCII
   * output with an error text that is not ASCII raises it with only the
   * output kept; otherwise output, error text and exit code are kept, the
   * keeper gets a new stream over the output, and `CollectFiles` decides
   * the rest. What the process did to the files stays in every case.
   */
  ghost predicate Communicated(raise: bool, env: Env, md5: string -> Digest, dirPath: string, l: Launch,
                               st: RunStatus, ss: seq<Stream>, keeper: Option<nat>,
                               st': RunStatus, ss': seq<Stream>, keeper': Option<nat>, tree': Tree, o: Outcome)
  {
    if !IsAscii(l.output) then
      st' == st && ss' == ss && keeper' == keeper && tree' == l.tree
      && o == Fail(UnicodeDecodeError(FirstNonAscii(l.output)))
    else if !IsAscii(l.stderr) then
      st' == st.(output := Some(l.output)) && ss' == ss && keeper' == keeper && tree' == l.tree
      && o == Fail(UnicodeDecodeError(FirstNonAscii(l.stderr)))
    else
      st' == Collected(st, l) && ss' == ss + [Stream(SplitLines(l.output), 0)] && keeper' == Some(|ss|)
      && (tree', o) == CollectFiles(raise, l, env, md5, dirPath, st.extOutputFiles)
  }

  /** Collected output is readable by the keeper from a stream of its own. */
  lemma CollectedOk(st: RunStatus, a: Arena, keeper: Option<nat>, l: Launch)
    requires StatusOk(st, a, keeper) && st.process.Some?
    ensures var b := a.(streams := a.streams + [Stream(SplitLines(l.output), 0)]);
      StatusOk(Collected(st, l), b, Some(|a.streams|))
  {
  }

  /** Consumption keeps the run-cycle fields consistent. */
  lemma StatusConsumed(st: RunStatus, a: Arena, keeper: Option<nat>, order: seq<nat>, s: nat)
    requires StatusOk(st, a, keeper) && ArenaOk(a) && s < |a.streams|
    requires forall j :: 0 <= j < |order| ==> order[j] < |a.nodes|
    ensures StatusOk(st, ConsumeInOrder(a, order, s), keeper)
  {
    ConsumeInOrderKeeps(a, order, s);
    ConsumeInOrderLines(a, order, s);
  }

  /** The local name `_prepare_io_file` gives a path, and none for an empty one. */
  function LocalName(env: Env, md5: string -> Digest, dirPath: string, path: string): (r: string)
    ensures '/' !in r
    ensures path == "" ==> r == ""
    ensures path != "" && Dirname(AbsPath(env, path)) != dirPath && '/' !in path ==> r == path
  {
    if path == "" then "" else PlanIo(env, md5, dirPath, path).local
  }

  /** How `_prepare_io_file` plans a path, and nothing for an empty one. */
  function PlanOf(env: Env, md5: string -> Digest, dirPath: string, path: string): Option<IoPlan>
  {
    if path == "" then None else Some(PlanIo(env, md5, dirPath, path))
  }

  /** The outside output files once a path, planned as `p`, is prepared as an output. */
  function Registered(files: seq<string>, p: Option<IoPlan>): (r: seq<string>)
    ensures forall x :: x in files ==> x in r
    ensures p.Some? && p.value.external ==> p.value.absolute in r
    ensures forall x :: x in r ==> x in files || (p.Some? && x == p.value.absolute)
    ensures NoDuplicates(files) ==> NoDuplicates(r)
  {
    if p.Some? && p.value.external then
      assert NoDuplicates(files) ==> NoDuplicates(AddTo(files, p.value.absolute)) by {
        if NoDuplicates(files) {
          AddToKeepsDistinct(files, p.value.absolute);
        }
      }
      AddTo(files, p.value.absolute)
    else files
  }

  /** The answers `ALlstar` gives for its five files. */
  function Answers(env: Env, md5: string -> Digest, dirPath: string,
                   img: string, psf: string, stars: string, als: string, sub: string): (r: string)
    ensures r != ""
  {
    AllstarCommands(LocalName(env, md5, dirPath, img), LocalName(env, md5, dirPath, psf),
                    LocalName(env, md5, dirPath, stars), LocalName(env, md5, dirPath, als),
                    LocalName(env, md5, dirPath, sub))
  }

  /**
   * An ALLSTAR runner: the `Runner` base class and its `Allstar` subclass
   * in one class, so the members of `Runner` (`Reset`,
   * `InsertProcessingStep`, `Communicate`, `Run`, ...) appear here, as
   * `Allstar` uses them. `New` prepares the runner directory with the
   * corrected `PrepareDir`, which takes a path as an existing directory;
   * as written a path raises `TypeError` (`PrepareDirAsWrittenRejectsPaths`).
   * `AllstarCommand` is `ALlstar` as written, which always raises;
   * `AllstarCommandCorrected` is the evidently intended one.
   */
  class Allstar {
    const fs: FileSystem
    const procs: Processors
    const exec: (string, string, Tree) -> Launch
    const md5: string -> Digest
    const executable: string
    /** Whether `Popen` finds the executable. */
    const found: bool
    /** `'%.2f'`. */
    const format: Decimal -> string
    const dir: TmpDir
    const allstaropt: string

    var batchMode: bool
    var raiseOnNonzeroExitcode: bool
    var image: Option<string>
    var options: OptDict

    /**
     * The commands, process, output, error text, exit code, outside output
     * files, chain references and the two `Allstar` processors.
     */
    var status: RunStatus
    ghost var chain: seq<nat>
    ghost var detached: bool

    function Settings(): UserSettings
      reads this
    {
      UserSettings(batchMode, raiseOnNonzeroExitcode, image, options)
    }

    ghost predicate Valid()
      reads this, procs
    {
      procs.Valid()
      && StatusOk(status, procs.State(), procs.keeperStream)
      && KeysDistinct(options)
      && ChainOk(procs.nodes, chain, status.head, status.tail, detached)
    }

    constructor Of(fs: FileSystem, exec: (string, string, Tree) -> Launch, md5: string -> Digest,
                   executable: string, found: bool, format: Decimal -> string, dir: TmpDir,
                   allstaropt: string, image: Option<string>, options: OptDict, batch: bool)
      requires KeysDistinct(options)
      ensures Valid() && fresh(procs)
      ensures this.fs == fs && this.executable == executable
      ensures this.found == found && this.dir == dir && this.allstaropt == allstaropt
      ensures Settings() == UserSettings(batch, true, image, options)
      ensures status == Idle
      ensures procs.nodes == [] && procs.streams == [] && procs.keeperStream == None
    {
      this.fs := fs;
      this.procs := new Processors();
      this.exec := exec;
      this.md5 := md5;
      this.executable := executable;
      this.found := found;
      this.format := format;
      this.dir := dir;
      this.allstaropt := allstaropt;
      this.batchMode := batch;
      this.raiseOnNonzeroExitcode := true;
      this.image := image;
      this.options := options;
      this.status := Idle;
      this.chain := [];
      this.detached := false;
    }

    /**
     * `Allstar(dir, image, allstaropt, options, batch)`: the runner directory
     * is prepared (a new temporary one, an existing path, or the `TmpDir`
     * given), `allstar.opt` is linked into it, and the runner starts idle
     * with the default options updated by the given ones. The options file
     * found in the configuration is `defaultOpt`; `tmpName` is the random
     * part of a new temporary directory's name.
     */
    static method New(fs: FileSystem, exec: (string, string, Tree) -> Launch, md5: string -> Digest,
                      executable: string, found: bool, format: Decimal -> string, dirArg: DirArg, tmpName: string,
                      allstaropt: Option<string>, defaultOpt: string, image: Option<string>, options: OptDict, batch: bool)
      returns (r: Result<Allstar>)
      modifies fs
      ensures dirArg.OtherDir? ==> r == Err(RunnerTypeError(DirTypeMessage)) && fs.tree == old(fs.tree)
      ensures r.Ok? ==>
        var a := r.value;
        fresh(a) && a.Valid() && a.fs == fs && a.status == Idle && a.executable == executable
        && a.Settings() == UserSettings(batch, true, image, InitialOptions(options))
        && a.allstaropt == (if allstaropt.Some? then allstaropt.value else defaultOpt)
        && InDir(fs.env, a.dir.path, AllstarOpt) in fs.tree
        && fs.tree[InDir(fs.env, a.dir.path, AllstarOpt)] == Link(ExpandPath(fs.env, Some(a.allstaropt)))
      ensures r.Ok? && dirArg.DirObject? ==> r.value.dir == dirArg.tmp
      ensures r.Ok? && dirArg.DirPath? ==> r.value.dir.path == dirArg.path && !r.value.dir.dirIsTmp
      ensures r.Ok? && dirArg.NoDir? ==> r.value.dir.dirIsTmp && r.value.dir.prefix == RunnerTmpPrefix
    {
      var opt := if allstaropt.Some? then allstaropt.value else defaultOpt;
      var src := PrepareDir(dirArg);
      if src.Err? {
        return Err(src.error);
      }
      var dir: TmpDir;
      if src.value.GivenObject? {
        dir := src.value.tmp;
      } else if src.value.FreshTemp? {
        var made := TmpDir.New(fs, None, src.value.prefix, None, tmpName);
        if made.Err? {
          return Err(made.error);
        }
        dir := made.value;
      } else {
        var made := TmpDir.New(fs, Some(src.value.path), DefaultPrefix, None, tmpName);
        dir := made.value;
      }
      var a := new Allstar.Of(fs, exec, md5, executable, found, format, dir, opt, image, InitialOptions(options), batch);
      ghost var before := fs.tree;
      var o := a.LinkToRunnerDir(opt, Some(AllstarOpt));
      LinkInReplaces(before, fs.env, dir.path, opt, AllstarOpt);
      if o.Fail? {
        return Err(o.error);
      }
      r := Ok(a);
    }

    /** `is_ready_to_run()`: commands wait and no process was started. */
    predicate IsReadyToRun()
      reads this
    {
      status.commands != "" && status.process.None?
    }

    /** `running`: a process was started and its output not collected yet. */
    predicate Running()
      reads this
    {
      status.process.Some? && status.output.None?
    }

    /** `has_finished_run()`: output was collected. */
    predicate HasFinishedRun()
      reads this
    {
      status.output.Some?
    }

    /**
     * The runner is in exactly one of four states: idle (nothing to run and
     * no process), ready to run, running, or finished.
     */
    lemma StatesExclusive()
      requires Valid()
      ensures !(IsReadyToRun() && Running()) && !(IsReadyToRun() && HasFinishedRun())
      ensures !(Running() && HasFinishedRun())
      ensures !IsReadyToRun() && !Running() && !HasFinishedRun() <==> status.commands == "" && status.process.None?
    {
    }

    /**
     * `_reset`: no output, error text, exit code, process, commands or
     * outside output files; the chain is the keeper alone, with no stream;
     * `Allstar` also forgets its option and result processors.
     */
    method Reset()
      requires Valid()
      modifies this`status, this`chain, this`detached, procs
      ensures Valid()
      ensures status == Idle
      ensures procs.keeperStream == None
      ensures procs.nodes == old(procs.nodes) && procs.streams == old(procs.streams)
    {
      procs.SetKeeperStream(None);
      status := Idle;
      chain := [];
      detached := false;
    }

    /**
     * `_insert_processing_step(std_in, output_processor, on_beginning)`: the
     * text goes before or after the commands; then a processor that is not an
     * output provider is refused; a provider put in front follows the keeper
     * and the old head is re-pointed to it (the tail stays); a provider put
     * at the end follows the old tail and becomes the tail, and the head if
     * there was none.
     */
    method InsertProcessingStep(stdIn: string, p: StepProcessor, onBeginning: bool) returns (r: Result<Option<nat>>)
      requires Valid()
      modifies this`status, this`chain, this`detached, procs
      ensures Valid()
      ensures procs.streams == old(procs.streams) && procs.keeperStream == old(procs.keeperStream)
      ensures var commands := if onBeginning then stdIn + old(status.commands) else old(status.commands) + stdIn;
        match p
        case NotAProvider =>
          r == Err(RunnerTypeError(NotProviderMessage))
          && status == old(status).(commands := commands) && procs.nodes == old(procs.nodes)
        case NoProcessor =>
          r == Ok(None) && status == old(status).(commands := commands) && procs.nodes == old(procs.nodes)
        case ProviderOf(kind) =>
          var k := |old(procs.nodes)|;
          r == Ok(Some(k))
          && if onBeginning then
               (old(status.head).Some? ==> old(status.head).value < k)
               && procs.nodes == InFront(old(procs.nodes), kind, old(status.head))
               && status == old(status).(commands := commands, head := Some(k))
             else
               procs.nodes == old(procs.nodes) + [Node(kind, old(status.tail), None, "", NoCache)]
               && status == old(status).(commands := commands, tail := Proc(k),
                                         head := if old(status.head).None? then Some(k) else old(status.head))
    {
      var commands := if onBeginning then stdIn + status.commands else status.commands + stdIn;
      match p
      case NoProcessor =>
        status := status.(commands := commands);
        r := Ok(None);
      case NotAProvider =>
        status := status.(commands := commands);
        r := Err(RunnerTypeError(NotProviderMessage));
      case ProviderOf(kind) =>
        var k;
        if onBeginning {
          k := PutInFront(kind, commands);
        } else {
          k := PutAtEnd(kind, commands);
        }
        r := Ok(Some(k));
    }

    /** A new provider in front of the head, with the commands now `commands`. */
    method PutInFront(kind: Kind, commands: string) returns (k: nat)
      requires Valid()
      modifies this`status, this`chain, this`detached, procs
      ensures Valid()
      ensures k == |old(procs.nodes)| && (old(status.head).Some? ==> old(status.head).value < k)
      ensures procs.nodes == InFront(old(procs.nodes), kind, old(status.head))
      ensures status == old(status).(commands := commands, head := Some(k))
      ensures procs.streams == old(procs.streams) && procs.keeperStream == old(procs.keeperStream)
    {
      ghost var chain' := if !detached && chain != [] then [|procs.nodes|] + chain else chain;
      ghost var detached' := detached || chain == [];
      ChainPrepend(procs.nodes, chain, status.head, status.tail, detached, kind);
      InFrontKept(procs.nodes, kind, status.head);
      StatusKept(status, procs.State(), Arena(InFront(procs.nodes, kind, status.head), procs.streams), procs.keeperStream);
      k := procs.AddInFront(kind, status.head);
      chain := chain';
      detached := detached';
      status := status.(commands := commands, head := Some(k));
    }

    /** A new provider after the tail, with the commands now `commands`. */
    method PutAtEnd(kind: Kind, commands: string) returns (k: nat)
      requires Valid()
      modifies this`status, this`chain, this`detached, procs
      ensures Valid()
      ensures k == |old(procs.nodes)|
      ensures procs.nodes == old(procs.nodes) + [Node(kind, old(status.tail), None, "", NoCache)]
      ensures status == old(status).(commands := commands, tail := Proc(k),
                                     head := if old(status.head).None? then Some(k) else old(status.head))
      ensures procs.streams == old(procs.streams) && procs.keeperStream == old(procs.keeperStream)
    {
      ChainAppend(procs.nodes, chain, status.head, status.tail, detached, kind);
      StatusKept(status, procs.State(), Arena(procs.nodes + [Node(kind, status.tail, None, "", NoCache)], procs.streams), procs.keeperStream);
      k := procs.Add(kind, status.tail);
      chain := chain + [k];
      status := status.(commands := commands, tail := Proc(k),
                        head := if status.head.None? then Some(k) else status.head);
    }

    /**
     * The copy-back loop of `__communicate`: every outside output file, in
     * order, is overwritten with its local copy; the first copy that fails
     * raises, and the copies before it stay.
     */
    method CopyBack(files: seq<string>) returns (o: Outcome)
      modifies fs
      ensures (fs.tree, o) == CopyBackIn(old(fs.tree), fs.env, md5, dir.path, files)
    {
      var i := 0;
      while i < |files|
        invariant 0 <= i <= |files|
        invariant CopyBackIn(old(fs.tree), fs.env, md5, dir.path, files[..i]) == (fs.tree, Pass)
      {
        var f := files[i];
        ghost var t := fs.tree;
        CopyBackAppend(old(fs.tree), fs.env, md5, dir.path, files[..i], [f]);
        PrefixExtends(files, i);
        CopyBackOne(t, fs.env, md5, dir.path, f);
        o := fs.Copy(Join(dir.path, RunnerDirFileName(md5, f, "", "", None)), f);
        assert CopyBackIn(old(fs.tree), fs.env, md5, dir.path, files[..i + 1]) == (fs.tree, o);
        if o.Fail? {
          CopyBackAppend(old(fs.tree), fs.env, md5, dir.path, files[..i + 1], files[i + 1..]);
          SplitJoins(files, i + 1);
          return;
        }
        i := i + 1;
      }
      assert files[..i] == files;
      o := Pass;
    }

    /**
     * `__communicate`: the process's output and error text are decoded as
     * ASCII, which raises `UnicodeDecodeError` on any other byte; then they
     * and the exit code are kept and the keeper gets a new stream over the
     * output; then a negative exit code raises `ExitError` if the runner is
     * set to raise, and otherwise every outside output file is copied back.
     */
    method Communicate() returns (o: Outcome)
      requires Valid() && status.process.Some?
      modifies this`status, procs, fs
      ensures Valid()
      ensures procs.nodes == old(procs.nodes)
      ensures Communicated(raiseOnNonzeroExitcode, fs.env, md5, dir.path,
                           exec(dir.path, old(status.process.value), old(fs.tree)),
                           old(status), old(procs.streams), old(procs.keeperStream),
                           status, procs.streams, procs.keeperStream, fs.tree, o)
    {
      var l := exec(dir.path, status.process.value, fs.tree);
      var _ := fs.Commit(Ok(l.tree));
      if !IsAscii(l.output) {
        return Fail(UnicodeDecodeError(FirstNonAscii(l.output)));
      }
      if !IsAscii(l.stderr) {
        status := status.(output := Some(l.output));
        return Fail(UnicodeDecodeError(FirstNonAscii(l.stderr)));
      }
      CollectedOk(status, procs.State(), procs.keeperStream, l);
      var s := procs.Open(l.output);
      procs.SetKeeperStream(Some(s));
      status := Collected(status, l);
      if l.returncode < 0 && raiseOnNonzeroExitcode {
        return Fail(ExitError(l.returncode));
      }
      o := CopyBack(status.extOutputFiles);
    }

    /**
     * `Allstar._pre_run`: without an `ALlstar` command there is nothing to
     * run; otherwise the script setting the options goes in front of the
     * commands, read by a new `AsOp_opt`, which becomes `OPtion_result`.
     */
    method PreRun() returns (o: Outcome)
      requires Valid()
      modifies this`status, this`chain, this`detached, procs
      ensures Valid()
      ensures procs.streams == old(procs.streams) && procs.keeperStream == old(procs.keeperStream)
      ensures old(status.allstarsResult).None? ==>
        o == Fail(RunnerException(NoAllstarMessage)) && status == old(status) && procs.nodes == old(procs.nodes)
      ensures old(status.allstarsResult).Some? ==>
        var k := |old(procs.nodes)|;
        o == Pass && (old(status.head).Some? ==> old(status.head).value < k)
        && procs.nodes == InFront(old(procs.nodes), AllstarOptions, old(status.head))
        && status == old(status).(commands := OptionsScript(format, options) + old(status.commands),
                                  head := Some(k), optionResult := Some(k))
    {
      if status.allstarsResult.None? {
        return Fail(RunnerException(NoAllstarMessage));
      }
      var r := InsertProcessingStep(OptionsScript(format, options), ProviderOf(AllstarOptions), true);
      status := status.(optionResult := r.value);
      o := Pass;
    }

    /**
     * `run(wait)`: `_pre_run`, then the process is started on the commands
     * (`OSError` when the executable is not found), which are encoded as
     * ASCII (`UnicodeEncodeError` on any other character, with the process
     * started and nothing sent); with `wait`, or when the short first
     * `communicate` finishes in time (`capturedNow`), the output is
     * collected at once.
     */
    method Run(wait: bool, capturedNow: bool) returns (o: Outcome)
      requires Valid()
      modifies this`status, this`chain, this`detached, procs, fs
      ensures Valid()
      ensures Kept(old(procs.nodes), procs.nodes)
      ensures old(status.allstarsResult).None? ==>
        o == Fail(RunnerException(NoAllstarMessage)) && status == old(status)
        && procs.nodes == old(procs.nodes) && procs.streams == old(procs.streams)
        && procs.keeperStream == old(procs.keeperStream) && fs.tree == old(fs.tree)
      ensures old(status.allstarsResult).Some? ==>
        var script := OptionsScript(format, options) + old(status.commands);
        var k := |old(procs.nodes)|;
        var st := old(status).(commands := script, head := Some(k), optionResult := Some(k));
        (!found ==>
           o == Fail(OSError(executable)) && status == st && fs.tree == old(fs.tree)
           && procs.streams == old(procs.streams) && procs.keeperStream == old(procs.keeperStream))
        && (found && !IsAscii(script) ==>
              o == Fail(UnicodeEncodeError(FirstNonAscii(script))) && status == st.(process := Some(""))
              && fs.tree == old(fs.tree)
              && procs.streams == old(procs.streams) && procs.keeperStream == old(procs.keeperStream))
        && (found && IsAscii(script) && !wait && !capturedNow ==>
              o == Pass && status == st.(process := Some(script)) && fs.tree == old(fs.tree)
              && procs.streams == old(procs.streams) && procs.keeperStream == old(procs.keeperStream))
        && (found && IsAscii(script) && (wait || capturedNow) ==>
              Communicated(raiseOnNonzeroExitcode, fs.env, md5, dir.path, exec(dir.path, script, old(fs.tree)),
                           st.(process := Some(script)), old(procs.streams), old(procs.keeperStream),
                           status, procs.streams, procs.keeperStream, fs.tree, o))
    {
      o := PreRun();
      if o.Fail? {
        return;
      }
      InFrontKept(old(procs.nodes), AllstarOptions, old(status.head));
      assert status == old(status).(commands := OptionsScript(format, options) + old(status.commands),
                                    head := Some(|old(procs.nodes)|), optionResult := Some(|old(procs.nodes)|));
      o := StartProcess(wait, capturedNow);
    }

    /**
     * The process part of `run(wait)`: `Popen`, then the commands encoded as
     * ASCII for `communicate`, in both branches; a character that is not
     * ASCII raises `UnicodeEncodeError` with the process started and nothing
     * written to it. With `wait` or a first `communicate` that finishes in
     * time, the output is collected at once.
     */
    method StartProcess(wait: bool, capturedNow: bool) returns (o: Outcome)
      requires Valid()
      modifies this`status, procs, fs
      ensures Valid()
      ensures procs.nodes == old(procs.nodes)
      ensures status.commands == old(status.commands) && status.optionResult == old(status.optionResult)
        && status.head == old(status.head) && status.tail == old(status.tail)
        && status.extOutputFiles == old(status.extOutputFiles) && status.allstarsResult == old(status.allstarsResult)
      ensures !found ==>
        o == Fail(OSError(executable)) && status == old(status) && fs.tree == old(fs.tree)
        && procs.streams == old(procs.streams) && procs.keeperStream == old(procs.keeperStream)
      ensures found && !IsAscii(old(status.commands)) ==>
        o == Fail(UnicodeEncodeError(FirstNonAscii(old(status.commands))))
        && status == old(status).(process := Some("")) && fs.tree == old(fs.tree)
        && procs.streams == old(procs.streams) && procs.keeperStream == old(procs.keeperStream)
      ensures found && IsAscii(old(status.commands)) && !wait && !capturedNow ==>
        o == Pass && status == old(status).(process := Some(old(status.commands)))
        && fs.tree == old(fs.tree)
        && procs.streams == old(procs.streams) && procs.keeperStream == old(procs.keeperStream)
      ensures found && IsAscii(old(status.commands)) && (wait || capturedNow) ==>
        Communicated(raiseOnNonzeroExitcode, fs.env, md5, dir.path, exec(dir.path, old(status.commands), old(fs.tree)),
                     old(status).(process := Some(old(status.commands))), old(procs.streams), old(procs.keeperStream),
                     status, procs.streams, procs.keeperStream, fs.tree, o)
    {
      if !found {
        return Fail(OSError(executable));
      }
      if !IsAscii(status.commands) {
        var at := FirstNonAscii(status.commands);
        status := status.(process := Some(""));
        return Fail(UnicodeEncodeError(at));
      }
      status := status.(process := Some(status.commands));
      assert Valid();
      o := Pass;
      if wait || capturedNow {
        o := Communicate();
      }
    }

    /**
     * `wait_for_results()`: a running process has its output collected; a
     * runner ready to run runs and waits; an idle or finished runner is left
     * as it is. Afterwards it is neither running nor ready, unless it raised.
     */
    method WaitForResults() returns (o: Outcome)
      requires Valid()
      modifies this`status, this`chain, this`detached, procs, fs
      ensures Valid()
      ensures Kept(old(procs.nodes), procs.nodes)
      ensures o.Pass? ==> !Running() && !IsReadyToRun()
      ensures !old(Running()) && !old(IsReadyToRun()) ==>
        o == Pass && status == old(status) && procs.nodes == old(procs.nodes)
        && procs.streams == old(procs.streams) && procs.keeperStream == old(procs.keeperStream)
        && fs.tree == old(fs.tree)
      ensures old(Running()) ==>
        procs.nodes == old(procs.nodes)
        && Communicated(raiseOnNonzeroExitcode, fs.env, md5, dir.path,
                        exec(dir.path, old(status.process.value), old(fs.tree)),
                        old(status), old(procs.streams), old(procs.keeperStream),
                        status, procs.streams, procs.keeperStream, fs.tree, o)
      ensures old(IsReadyToRun()) && old(status.allstarsResult).None? ==>
        o == Fail(RunnerException(NoAllstarMessage)) && status == old(status)
      ensures old(IsReadyToRun()) && o.Pass? ==>
        status.process == Some(OptionsScript(format, options) + old(status.commands)) && HasFinishedRun()
    {
      o := Pass;
      if Running() {
        o := Communicate();
        return;
      }
      if IsReadyToRun() {
        o := Run(true, false);
      }
    }

    /**
     * `_get_ready_for_commands()`: a running process is waited for, and a
     * finished runner is reset, so that new commands start a new script;
     * commands waiting to run stay.
     */
    method GetReadyForCommands() returns (o: Outcome)
      requires Valid()
      modifies this`status, this`chain, this`detached, procs, fs
      ensures Valid()
      ensures procs.nodes == old(procs.nodes)
      ensures o.Pass? ==> !Running() && !HasFinishedRun()
      ensures o.Fail? ==> o.error.ExitError? || o.error.OSError? || o.error.UnicodeDecodeError?
      ensures o.Pass? ==> status.commands == if old(status.process).Some? then "" else old(status.commands)
      ensures old(HasFinishedRun()) ==> o == Pass && status == Idle && procs.keeperStream == None
      ensures old(Running()) && o.Pass? ==> status == Idle && procs.keeperStream == None
      ensures !old(Running()) && !old(HasFinishedRun()) ==>
        o == Pass && status == old(status) && procs.streams == old(procs.streams)
        && procs.keeperStream == old(procs.keeperStream) && fs.tree == old(fs.tree)
    {
      o := Pass;
      if Running() {
        o := WaitForResults();
        if o.Fail? {
          return;
        }
      }
      if HasFinishedRun() {
        Reset();
      }
    }

    /**
     * `_get_output_stream()` of processor `k`: a processor that has a stream
     * returns it; otherwise the walk back over the predecessors stops at a
     * processor that has a stream, at one without a predecessor (an
     * `AttributeError`), or at the keeper, which first waits for the results
     * and raises when there is still no stream. The processors walked then
     * read their segments from that stream, the farthest first.
     */
    method GetOutputStream(k: nat) returns (r: Result<nat>, ghost path: seq<nat>, ghost bottom: Bottom, ghost mid: Arena)
      requires Valid() && k < |procs.nodes|
      modifies this`status, this`chain, this`detached, procs, fs
      ensures Valid()
      ensures KindsKept(old(procs.nodes), procs.nodes)
      ensures (path, bottom) == Walk(old(procs.State()), old(procs.rank), k)
      ensures r.Ok? ==> procs.nodes[k].stream == Some(r.value)
      ensures r.Err? ==> procs.nodes[k].stream.None?
      ensures r.Ok? && path != [] ==> ResolvedBy(mid, Reverse(path), r.value, procs.State())
      ensures path == [] ==> r == Ok(old(procs.nodes[k].stream.value)) && procs.State() == old(procs.State())
      ensures bottom.AtUnlinked? ==> r == Err(AttributeError(NoPrevMessage)) && procs.State() == old(procs.State())
      ensures bottom.AtCached? && path != [] ==>
        bottom.index < |old(procs.nodes)| && old(procs.nodes[bottom.index].stream).Some?
        && r == Ok(old(procs.nodes[bottom.index].stream.value)) && mid == old(procs.State())
      ensures bottom.AtKeeper? && r.Ok? ==> procs.keeperStream == Some(r.value)
    {
      var w := Walk(procs.State(), procs.rank, k);
      path, bottom := w.0, w.1;
      mid := procs.State();
      if w.0 == [] {
        r := Ok(procs.nodes[k].stream.value);
        return;
      }
      if w.1.AtUnlinked? {
        r := Err(AttributeError(NoPrevMessage));
        return;
      }
      var s: nat;
      if w.1.AtCached? {
        s := procs.nodes[w.1.index].stream.value;
      } else {
        ghost var waited;
        r, waited := KeeperStream();
        if r.Err? {
          return;
        }
        s := r.value;
        mid := procs.State();
      }
      forall j1, j2 | 0 <= j1 < j2 < |path|
        ensures path[j1] != path[j2]
      {
        WalkDistinct(old(procs.State()), old(procs.rank), k, j1, j2);
      }
      ReverseDistinct(path);
      Resolve(Reverse(w.0), s, k);
      r := Ok(s);
    }

    /**
     * `StreamKeeper._get_output_stream()`: the runner first waits for its
     * results; then the keeper's stream, or an error when it has none.
     */
    method KeeperStream() returns (r: Result<nat>, ghost waited: Outcome)
      requires Valid()
      modifies this`status, this`chain, this`detached, procs, fs
      ensures Valid()
      ensures Kept(old(procs.nodes), procs.nodes)
      ensures r == if waited.Fail? then Err(waited.error)
                   else if procs.keeperStream.None? then Err(RuntimeError(NoStreamMessage))
                   else Ok(procs.keeperStream.value)
      ensures waited.Pass? ==> !Running() && !IsReadyToRun()
      ensures !old(Running()) && !old(IsReadyToRun()) ==>
        waited == Pass && status == old(status) && procs.nodes == old(procs.nodes)
        && procs.streams == old(procs.streams) && procs.keeperStream == old(procs.keeperStream)
        && fs.tree == old(fs.tree)
    {
      var o := WaitForResults();
      waited := o;
      if o.Fail? {
        return Err(o.error), waited;
      }
      if procs.keeperStream.None? {
        return Err(RuntimeError(NoStreamMessage)), waited;
      }
      r := Ok(procs.keeperStream.value);
    }

    /** The processors on `order`, none resolved and each listed once, read their segments from stream `s`. */
    method Resolve(order: seq<nat>, s: nat, k: nat)
      requires Valid() && s < |procs.streams| && k in order
      requires forall j :: 0 <= j < |order| ==> order[j] < |procs.nodes| && procs.nodes[order[j]].stream.None?
      requires Distinct(order)
      modifies procs
      ensures Valid()
      ensures ResolvedBy(old(procs.State()), order, s, procs.State())
      ensures procs.keeperStream == old(procs.keeperStream)
      ensures KindsKept(old(procs.nodes), procs.nodes)
      ensures procs.nodes[k].stream == Some(s)
    {
      ghost var a := procs.State();
      ConsumeInOrderKeeps(a, order, s);
      StatusConsumed(status, a, procs.keeperStream, order, s);
      ConsumeInOrderResolves(a, order, s, k);
      procs.ConsumeAll(order, s);
      ChainKept(a.nodes, procs.nodes, chain, status.head, status.tail, detached);
    }

    /** `get_buffer()`: the processor's segment, read first if need be. */
    method GetBuffer(k: nat) returns (r: Result<string>)
      requires Valid() && k < |procs.nodes| && Buffered(procs.nodes[k].kind)
      modifies this`status, this`chain, this`detached, procs, fs
      ensures Valid() && KindsKept(old(procs.nodes), procs.nodes)
      ensures r.Ok? <==> procs.nodes[k].stream.Some?
      ensures r.Ok? ==> r.value == procs.nodes[k].buffer
      ensures old(procs.nodes[k].stream).Some? ==>
        r == Ok(old(procs.nodes[k].buffer)) && procs.State() == old(procs.State())
    {
      var s;
      ghost var path, bottom, mid;
      s, path, bottom, mid := GetOutputStream(k);
      if s.Err? {
        return Err(s.error);
      }
      r := Ok(procs.nodes[k].buffer);
    }

    /**
     * `options` of `DPOP_OPtion` and `AsOp_opt`: the two-letter keys and value
     * texts of the segment, or an error when the key the class requires is
     * missing; the first success is memoised, and a memoised processor is not
     * asked for its segment again.
     */
    method Options(k: nat) returns (r: Result<map<string, string>>, ghost got: Result<string>)
      requires Valid() && k < |procs.nodes|
      requires procs.nodes[k].kind == OptionListing || procs.nodes[k].kind == AllstarOptions
      modifies this`status, this`chain, this`detached, procs, fs
      ensures Valid() && ClassesKept(old(procs.nodes), procs.nodes)
      ensures r == if got.Ok? then ParsedOptions(procs.nodes[k].kind, got.value) else Err(got.error)
      ensures got.Ok? <==> procs.nodes[k].stream.Some?
      ensures got.Ok? ==> got.value == procs.nodes[k].buffer
      ensures r.Ok? ==> procs.nodes[k].cache.options
      ensures old(procs.nodes[k].cache.options) ==> procs.State() == old(procs.State())
    {
      if procs.nodes[k].cache.options {
        got := Ok(procs.nodes[k].buffer);
        return ParsedOptions(procs.nodes[k].kind, procs.nodes[k].buffer), got;
      }
      var b := GetBuffer(k);
      got := b;
      if b.Err? {
        return Err(b.error), got;
      }
      r := ParsedOptions(procs.nodes[k].kind, b.value);
      if r.Ok? {
        Memoise(k, procs.nodes[k].cache.(options := true));
      }
    }

    /** `get_option(key)`: the option named by the key's first two letters, in upper case, as a number. */
    method GetOption(k: nat, key: string) returns (r: Result<Decimal>, ghost got: Result<string>)
      requires Valid() && k < |procs.nodes|
      requires procs.nodes[k].kind == OptionListing || procs.nodes[k].kind == AllstarOptions
      modifies this`status, this`chain, this`detached, procs, fs
      ensures Valid() && ClassesKept(old(procs.nodes), procs.nodes)
      ensures got.Ok? <==> procs.nodes[k].stream.Some?
      ensures got.Ok? ==> got.value == procs.nodes[k].buffer
      ensures r == match (if got.Ok? then ParsedOptions(procs.nodes[k].kind, got.value) else Err(got.error))
                   case Err(e) => Err(e)
                   case Ok(opts) => OutputProviders.GetOption(opts, key)
    {
      var o;
      o, got := Options(k);
      if o.Err? {
        return Err(o.error), got;
      }
      r := OutputProviders.GetOption(o.value, key);
    }

    /**
     * `errors` of `DpOp_PSf`: the (star, error) pairs of the segment's error
     * rows, in order; memoised once read.
     */
    method Errors(k: nat) returns (r: Result<seq<(nat, Decimal)>>, ghost got: Result<string>)
      requires Valid() && k < |procs.nodes| && procs.nodes[k].kind == PsfErrors
      modifies this`status, this`chain, this`detached, procs, fs
      ensures Valid() && ClassesKept(old(procs.nodes), procs.nodes)
      ensures r == if got.Ok? then OutputProviders.PsfErrors(got.value) else Err(got.error)
      ensures got.Ok? <==> procs.nodes[k].stream.Some?
      ensures got.Ok? ==> got.value == procs.nodes[k].buffer
      ensures r.Ok? ==> procs.nodes[k].cache.errors
      ensures old(procs.nodes[k].cache.errors) ==> procs.State() == old(procs.State())
    {
      if procs.nodes[k].cache.errors {
        got := Ok(procs.nodes[k].buffer);
        return OutputProviders.PsfErrors(procs.nodes[k].buffer), got;
      }
      var b := GetBuffer(k);
      got := b;
      if b.Err? {
        return Err(b.error), got;
      }
      r := OutputProviders.PsfErrors(b.value);
      if r.Ok? {
        Memoise(k, procs.nodes[k].cache.(errors := true));
      }
    }

    /**
     * `data` of `DpOp_PSf`: the three numeric texts of the fit line after
     * the PSF heading, or an error embedding the buffer; memoised once found.
     */
    method Data(k: nat) returns (r: Result<(string, string, string)>, ghost got: Result<string>)
      requires Valid() && k < |procs.nodes| && procs.nodes[k].kind == PsfErrors
      modifies this`status, this`chain, this`detached, procs, fs
      ensures Valid() && ClassesKept(old(procs.nodes), procs.nodes)
      ensures r == if got.Ok? then OutputProviders.PsfData(got.value) else Err(got.error)
      ensures got.Ok? <==> procs.nodes[k].stream.Some?
      ensures got.Ok? ==> got.value == procs.nodes[k].buffer
      ensures r.Ok? ==> procs.nodes[k].cache.data
      ensures old(procs.nodes[k].cache.data) ==> procs.State() == old(procs.State())
    {
      if procs.nodes[k].cache.data {
        got := Ok(procs.nodes[k].buffer);
        return OutputProviders.PsfData(procs.nodes[k].buffer), got;
      }
      var b := GetBuffer(k);
      got := b;
      if b.Err? {
        return Err(b.error), got;
      }
      r := OutputProviders.PsfData(b.value);
      if r.Ok? {
        Memoise(k, procs.nodes[k].cache.(data := true));
      }
    }

    /** `chi` of `DpOp_PSf`: the first number of `data`. */
    method Chi(k: nat) returns (r: Result<Decimal>, ghost got: Result<string>)
      requires Valid() && k < |procs.nodes| && procs.nodes[k].kind == PsfErrors
      modifies this`status, this`chain, this`detached, procs, fs
      ensures Valid() && ClassesKept(old(procs.nodes), procs.nodes)
      ensures r == if got.Ok? then OutputProviders.Chi(got.value) else Err(got.error)
      ensures got.Ok? ==> got.value == procs.nodes[k].buffer
    {
      var d;
      d, got := Data(k);
      if d.Err? {
        return Err(d.error), got;
      }
      r := Ok(OutputProviders.FixedValue(d.value.0));
    }

    /** `hwhm_xy` of `DpOp_PSf`: the second and third numbers of `data`. */
    method HwhmXY(k: nat) returns (r: Result<(Decimal, Decimal)>, ghost got: Result<string>)
      requires Valid() && k < |procs.nodes| && procs.nodes[k].kind == PsfErrors
      modifies this`status, this`chain, this`detached, procs, fs
      ensures Valid() && ClassesKept(old(procs.nodes), procs.nodes)
      ensures r == if got.Ok? then OutputProviders.HwhmXY(got.value) else Err(got.error)
      ensures got.Ok? ==> got.value == procs.nodes[k].buffer
    {
      var d;
      d, got := Data(k);
      if d.Err? {
        return Err(d.error), got;
      }
      r := Ok((OutputProviders.FixedValue(d.value.1), OutputProviders.FixedValue(d.value.2)));
    }

    /** `picture_size` of `DPOP_ATtach`: the two numbers after `Picture size:`, read from the segment each time. */
    method PictureSize(k: nat) returns (r: Result<(nat, nat)>, ghost got: Result<string>)
      requires Valid() && k < |procs.nodes| && procs.nodes[k].kind == Attach
      modifies this`status, this`chain, this`detached, procs, fs
      ensures Valid() && ClassesKept(old(procs.nodes), procs.nodes)
      ensures r == if got.Ok? then OutputProviders.PictureSize(got.value) else Err(got.error)
      ensures got.Ok? <==> procs.nodes[k].stream.Some?
      ensures got.Ok? ==> got.value == procs.nodes[k].buffer
    {
      var b := GetBuffer(k);
      got := b;
      if b.Err? {
        return Err(b.error), got;
      }
      r := OutputProviders.PictureSize(b.value);
    }

    /**
     * `stars_no` of `AsOp_result`: the disappeared and converged counts of
     * the summary line, as text; memoised once found.
     */
    method StarsNo(k: nat) returns (r: Result<(string, string)>, ghost got: Result<string>)
      requires Valid() && k < |procs.nodes| && procs.nodes[k].kind == AllstarResult
      modifies this`status, this`chain, this`detached, procs, fs
      ensures Valid() && ClassesKept(old(procs.nodes), procs.nodes)
      ensures r == if got.Ok? then OutputProviders.StarsNo(got.value) else Err(got.error)
      ensures got.Ok? <==> procs.nodes[k].stream.Some?
      ensures got.Ok? ==> got.value == procs.nodes[k].buffer
      ensures r.Ok? ==> procs.nodes[k].cache.stars
      ensures old(procs.nodes[k].cache.stars) ==> procs.State() == old(procs.State())
    {
      if procs.nodes[k].cache.stars {
        got := Ok(procs.nodes[k].buffer);
        return OutputProviders.StarsNo(procs.nodes[k].buffer), got;
      }
      var b := GetBuffer(k);
      got := b;
      if b.Err? {
        return Err(b.error), got;
      }
      r := OutputProviders.StarsNo(b.value);
      if r.Ok? {
        Memoise(k, procs.nodes[k].cache.(stars := true));
      }
    }

    /**
     * `link_to_runner_dir(source, link_filename)`: a link to the expanded
     * source replaces the entry of that name (by default the source's base
     * name) in the runner directory.
     */
    method LinkToRunnerDir(source: string, name: Option<string>) returns (o: Outcome)
      modifies fs
      ensures (fs.tree, o) == LinkIn(old(fs.tree), fs.env, dir.path, source,
                                     if name.Some? then name.value else Basename(ExpandPath(fs.env, Some(source))))
    {
      var n := if name.Some? then name.value else Basename(ExpandPath(fs.env, Some(source)));
      var _ := fs.Remove(Join(dir.path, n));
      o := fs.Symlink(ExpandPath(fs.env, Some(source)), Join(dir.path, n));
    }

    /** `rm_from_runner_dir(name)`: the file goes if it is there; errors are swallowed. */
    method RmFromRunnerDir(name: string)
      modifies fs
      ensures fs.tree == RemoveQuietly(old(fs.tree), fs.env, dir.path, name)
    {
      var _ := fs.Remove(Join(dir.path, name));
    }

    /**
     * `_prepare_io_file(path, output)`: the local name and absolute path of
     * a file the program reads or writes. An outside output is registered
     * for copying back; an outside input is linked in unless it is one of
     * those outputs; a local copy of an output is removed beforehand.
     */
    method PrepareIoFile(path: string, output: bool) returns (r: Result<(string, string)>)
      requires Valid()
      modifies this`status, fs
      ensures Valid()
      ensures path == "" ==> r == Ok(("", "")) && status == old(status) && fs.tree == old(fs.tree)
      ensures path != "" ==>
        var p := PlanIo(fs.env, md5, dir.path, path);
        (r.Ok? ==> r.value == (p.local, p.absolute))
        && (output ==>
              r.Ok?
              && status == old(status).(extOutputFiles :=
                   if p.external then AddTo(old(status.extOutputFiles), p.absolute) else old(status.extOutputFiles))
              && fs.tree == RemoveQuietly(old(fs.tree), fs.env, dir.path, p.local))
        && (r.Err? ==> !output && r.error.OSError?)
        && (!output ==>
              status == old(status)
              && if p.external && p.absolute !in old(status.extOutputFiles) then
                   var linked := LinkIn(old(fs.tree), fs.env, dir.path, p.absolute, p.local);
                   fs.tree == linked.0 && (r.Ok? <==> linked.1.Pass?) && (r.Err? ==> r.error == linked.1.error)
                 else r.Ok? && fs.tree == old(fs.tree))
    {
      if path == "" {
        return Ok(("", ""));
      }
      var p := PlanIo(fs.env, md5, dir.path, path);
      if p.external {
        if output {
          RegisterOutput(p.absolute);
        } else if p.absolute !in status.extOutputFiles {
          var o := LinkToRunnerDir(p.absolute, Some(p.local));
          if o.Fail? {
            return Err(o.error);
          }
        }
      }
      if output {
        RmFromRunnerDir(p.local);
      }
      r := Ok((p.local, p.absolute));
    }

    /** `ext_output_files.add(absolute)`. */
    method RegisterOutput(absolute: string)
      requires Valid()
      modifies this`status
      ensures Valid()
      ensures status == old(status).(extOutputFiles := AddTo(old(status.extOutputFiles), absolute))
    {
      AddToKeepsDistinct(status.extOutputFiles, absolute);
      status := status.(extOutputFiles := AddTo(status.extOutputFiles, absolute));
    }

    /**
     * `set_options(options, value)`: a file name without a value is linked
     * in as `allstar.opt`; a key with a value, a list of pairs or a `dict`
     * updates the options. A list or `dict` given with a value is not a key
     * a `dict` can hold.
     */
    method SetOptions(arg: OptArg, value: Option<Decimal>) returns (o: Outcome)
      requires Valid()
      modifies this`options, fs
      ensures Valid()
      ensures arg.OptText? && value.None? ==>
        (fs.tree, o) == LinkIn(old(fs.tree), fs.env, dir.path, arg.text, AllstarOpt) && options == old(options)
      ensures arg.OptText? && value.Some? ==>
        o == Pass && options == DictSet(old(options), arg.text, value) && fs.tree == old(fs.tree)
      ensures !arg.OptText? && value.Some? ==>
        o == Fail(TypeError(UnhashableMessage)) && options == old(options) && fs.tree == old(fs.tree)
      ensures arg.OptList? && value.None? ==>
        o == Pass && options == DictUpdate(old(options), DictOf(arg.pairs)) && fs.tree == old(fs.tree)
      ensures arg.OptMap? && value.None? ==>
        o == Pass && options == DictUpdate(old(options), arg.entries) && fs.tree == old(fs.tree)
    {
      if arg.OptText? && value.None? {
        o := LinkToRunnerDir(arg.text, Some(AllstarOpt));
      } else if value.Some? {
        if !arg.OptText? {
          return Fail(TypeError(UnhashableMessage));
        }
        options := DictSet(options, arg.text, value);
        o := Pass;
      } else {
        var pairs := if arg.OptList? then DictOf(arg.pairs) else arg.entries;
        DictUpdateDistinct(options, pairs);
        options := DictUpdate(options, pairs);
        o := Pass;
      }
    }

    /** `_prepare_input_file(path)`: the local name of an input, linked in when it lies outside. */
    method PrepareInput(path: string) returns (r: Result<string>)
      requires Valid()
      modifies this`status, fs
      ensures Valid() && status == old(status)
      ensures r.Ok? ==> r.value == LocalName(fs.env, md5, dir.path, path)
      ensures r.Err? ==> r.error.OSError?
    {
      var p := PrepareIoFile(path, false);
      if p.Err? {
        return Err(p.error);
      }
      r := Ok(p.value.0);
    }

    /** `_prepare_output_file(path)`: the local name of an output, registered for copying back when it lies outside. */
    method PrepareOutput(path: string) returns (local: string)
      requires Valid()
      modifies this`status, fs
      ensures Valid()
      ensures status == old(status).(extOutputFiles := Registered(old(status.extOutputFiles), PlanOf(fs.env, md5, dir.path, path)))
      ensures local == LocalName(fs.env, md5, dir.path, path)
    {
      var p := PrepareIoFile(path, true);
      local := p.value.0;
    }

    /**
     * The five files of `ALlstar`: image, PSF and star list as inputs, profile
     * photometry and subtracted image as outputs, prepared in that order; the
     * answers name them by their local names. A failing link raises before
     * any output is registered.
     */
    method PrepareAllstarFiles(img: string, psf: string, stars: string, als: string, sub: string)
      returns (r: Result<string>)
      requires Valid()
      modifies this`status, fs
      ensures Valid()
      ensures r.Ok? ==> r.value == Answers(fs.env, md5, dir.path, img, psf, stars, als, sub)
      ensures r.Err? ==> r.error.OSError?
      ensures status == if r.Ok? then
          old(status).(extOutputFiles := Registered(Registered(old(status.extOutputFiles),
            PlanOf(fs.env, md5, dir.path, als)), PlanOf(fs.env, md5, dir.path, sub)))
        else old(status)
    {
      var a := PrepareInput(img);
      if a.Err? { return Err(a.error); }
      var b := PrepareInput(psf);
      if b.Err? { return Err(b.error); }
      var c := PrepareInput(stars);
      if c.Err? { return Err(c.error); }
      var d := PrepareOutput(als);
      var e := PrepareOutput(sub);
      r := Ok(AllstarCommands(a.value, b.value, c.value, d, e));
    }

    /**
     * `ALlstar(image_file, psf_file, stars, profile_photometry_file,
     * subtracted_image_file)` as written: after waiting for and clearing a
     * finished run, the five files are staged, and then building
     * `AsOp_result(profile_photometry_file=..., subtracted_image_file=...)`
     * raises `TypeError`. No processor is inserted, no answers are added and
     * `ALlstars_result` is not set, so a later `run()` still raises
     * "Add ALlstar command before run." in `_pre_run`.
     */
    method AllstarCommand(imageFile: Option<string>, psf: string, stars: string, als: string, sub: string)
      returns (r: Result<nat>)
      requires Valid()
      modifies this`status, this`chain, this`detached, procs, fs
      ensures Valid()
      ensures r.Err? && procs.nodes == old(procs.nodes)
      ensures r == Err(TypeError(UnexpectedKeyword("profile_photometry_file"))) ==>
        var cleared := old(status.process).Some?;
        status.process.None? && status.output.None?
        && status.commands == (if cleared then "" else old(status.commands))
        && status.allstarsResult == (if cleared then None else old(status.allstarsResult))
    {
      var o := GetReadyForCommands();
      if o.Fail? {
        return Err(o.error);
      }
      r := StageAsWritten(ImageFile(imageFile, image), psf, stars, als, sub);
    }

    /**
     * The staging part of `ALlstar` as written: the five files are prepared,
     * then the result processor cannot be built. Only the outside output
     * files are registered; the commands, the chain and `ALlstars_result`
     * are left as they were.
     */
    method StageAsWritten(img: string, psf: string, stars: string, als: string, sub: string)
      returns (r: Result<nat>)
      requires Valid()
      modifies this`status, fs
      ensures Valid() && r.Err?
      ensures r == Err(TypeError(UnexpectedKeyword("profile_photometry_file"))) ==>
        status == old(status).(extOutputFiles := Registered(Registered(old(status.extOutputFiles),
          PlanOf(fs.env, md5, dir.path, als)), PlanOf(fs.env, md5, dir.path, sub)))
      ensures r != Err(TypeError(UnexpectedKeyword("profile_photometry_file"))) ==>
        r.error.OSError? && status == old(status)
    {
      var a := PrepareAllstarFiles(img, psf, stars, als, sub);
      if a.Err? {
        return Err(a.error);
      }
      var p := AllstarProcessorAsWritten();
      AllstarProcessorAsWrittenFails();
      r := Err(p.error);
    }

    /**
     * `ALlstar` as evidently intended, with `AsOp_result` built without
     * arguments: after waiting for and clearing a finished run, the answers
     * are appended with a new `AsOp_result` at the end of the chain, which
     * becomes `ALlstars_result`; outside batch mode the script is run at
     * once, and waited for.
     */
    method AllstarCommandCorrected(imageFile: Option<string>, psf: string, stars: string, als: string, sub: string)
      returns (r: Result<nat>)
      requires Valid()
      modifies this`status, this`chain, this`detached, procs, fs
      ensures Valid()
      ensures r.Ok? ==>
        r.value < |procs.nodes| && procs.nodes[r.value].kind == AllstarResult
        && status.allstarsResult == Some(r.value)
      ensures var answers := Answers(fs.env, md5, dir.path, ImageFile(imageFile, image), psf, stars, als, sub);
        var before := if old(status.process).Some? then "" else old(status.commands);
        (r.Ok? && batchMode ==> IsReadyToRun() && status.commands == before + answers)
        && (r.Ok? && !batchMode ==>
              HasFinishedRun() && status.process == Some(OptionsScript(format, options) + (before + answers)))
    {
      var o := GetReadyForCommands();
      if o.Fail? {
        return Err(o.error);
      }
      r := Stage(ImageFile(imageFile, image), psf, stars, als, sub);
    }

    /** `ALlstar` with the image file `img`, once the runner is neither running nor finished. */
    method Stage(img: string, psf: string, stars: string, als: string, sub: string)
      returns (r: Result<nat>)
      requires Valid() && !Running() && !HasFinishedRun()
      modifies this`status, this`chain, this`detached, procs, fs
      ensures Valid()
      ensures r.Ok? ==>
        r.value < |procs.nodes| && procs.nodes[r.value].kind == AllstarResult
        && status.allstarsResult == Some(r.value)
      ensures var answers := Answers(fs.env, md5, dir.path, img, psf, stars, als, sub);
        (r.Ok? && batchMode ==> IsReadyToRun() && status.commands == old(status.commands) + answers)
        && (r.Ok? && !batchMode ==>
              HasFinishedRun() && status.process == Some(OptionsScript(format, options) + (old(status.commands) + answers)))
    {
      if batchMode {
        r := StageAllstar(img, psf, stars, als, sub);
      } else {
        r := StageAndRun(img, psf, stars, als, sub);
      }
    }

    /** `ALlstar` outside batch mode, once the runner is neither running nor finished. */
    method StageAndRun(img: string, psf: string, stars: string, als: string, sub: string)
      returns (r: Result<nat>)
      requires Valid() && !Running() && !HasFinishedRun()
      modifies this`status, this`chain, this`detached, procs, fs
      ensures Valid()
      ensures r.Ok? ==>
        r.value < |procs.nodes| && procs.nodes[r.value].kind == AllstarResult
        && status.allstarsResult == Some(r.value) && HasFinishedRun()
        && status.process == Some(OptionsScript(format, options)
             + (old(status.commands) + Answers(fs.env, md5, dir.path, img, psf, stars, als, sub)))
    {
      r := StageAllstar(img, psf, stars, als, sub);
      if r.Ok? {
        var o := RunAndWait(r.value);
        if o.Fail? {
          return Err(o.error);
        }
      }
    }

    /**
     * `run()` with the `ALlstar` command `k` in place: the options go in
     * front and the whole script is run and waited for; `k` stays the
     * `ALlstars_result` processor.
     */
    method RunAndWait(ghost k: nat) returns (o: Outcome)
      requires Valid() && k < |procs.nodes| && procs.nodes[k].kind == AllstarResult
      requires status.allstarsResult == Some(k)
      modifies this`status, this`chain, this`detached, procs, fs
      ensures Valid()
      ensures k < |procs.nodes| && procs.nodes[k].kind == AllstarResult && status.allstarsResult == Some(k)
      ensures o.Pass? ==> HasFinishedRun() && status.process == Some(OptionsScript(format, options) + old(status.commands))
    {
      o := Run(true, false);
    }

    /** The files, answers and processor of `ALlstar`, on a runner that is neither running nor finished. */
    method StageAllstar(img: string, psf: string, stars: string, als: string, sub: string)
      returns (r: Result<nat>)
      requires Valid() && !Running() && !HasFinishedRun()
      modifies this`status, this`chain, this`detached, procs, fs
      ensures Valid()
      ensures r.Ok? ==>
        r.value < |procs.nodes| && procs.nodes[r.value].kind == AllstarResult
        && status.allstarsResult == Some(r.value) && status.process.None? && status.output.None?
        && status.commands == old(status.commands) + Answers(fs.env, md5, dir.path, img, psf, stars, als, sub)
    {
      var a := PrepareAllstarFiles(img, psf, stars, als, sub);
      if a.Err? {
        return Err(a.error);
      }
      assert status.commands == old(status.commands);
      assert a.value == Answers(fs.env, md5, dir.path, img, psf, stars, als, sub);
      var k := AppendAllstarStep(a.value);
      assert status.commands == old(status.commands) + a.value;
      r := Ok(k);
    }

    /** The answers and a new `AsOp_result` at the end of the chain, as `ALlstars_result`. */
    method AppendAllstarStep(answers: string) returns (k: nat)
      requires Valid()
      modifies this`status, this`chain, this`detached, procs
      ensures Valid()
      ensures k < |procs.nodes| && procs.nodes[k].kind == AllstarResult
      ensures status == old(status).(commands := old(status.commands) + answers, allstarsResult := Some(k),
                                     tail := status.tail, head := status.head)
    {
      var kind := AllstarProcessor().value;
      var p := InsertProcessingStep(answers, ProviderOf(kind), false);
      k := p.value.value;
      status := status.(allstarsResult := Some(k));
    }

    /** Records that processor `k` has memoised the properties in `c`. */
    method Memoise(k: nat, c: Cache)
      requires Valid() && k < |procs.nodes| && CacheAgrees(procs.nodes[k].(cache := c))
      modifies procs
      ensures Valid()
      ensures procs.nodes == old(procs.nodes)[k := old(procs.nodes)[k].(cache := c)]
      ensures procs.streams == old(procs.streams) && procs.keeperStream == old(procs.keeperStream)
    {
      ghost var a := procs.State();
      ghost var b := a.(nodes := a.nodes[k := a.nodes[k].(cache := c)]);
      StatusKept(status, a, b, procs.keeperStream);
      ChainKept(a.nodes, b.nodes, chain, status.head, status.tail, detached);
      procs.SetCache(k, c);
    }
  }
}
