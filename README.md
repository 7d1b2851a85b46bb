# astwro core, modelled in Dafny

This project models the core of astwro, a Python toolkit for astronomical
photometry, and proves properties of the model. The core is the engine that
drives DAOPHOT's ALLSTAR through one standard-input script and one captured
output, plus the smaller pieces around it: runner directories, counter-named
file series, the DAO star-list header and file-type rules, neighbour grouping,
catalogue matching and a grep for FITS headers. The source is read with
Python 3 semantics.

Modules, following the program's files:

- `OutputChain` (`output_chain.dfy`): the chain of output processors of
  `astwro/pydaophot/OutputProviders.py`. A `StreamKeeper` is followed by
  processors, each pointing at its predecessor. A processor resolves its
  predecessor first, then reads lines from the shared stream up to its own last
  line, and buffers and memoises what it read. The nodes and the streams live in
  an arena (`Processors`), so a node's identity and its `prev` reference are
  indices.
- `OutputProviders` (`output_providers.dfy`): the per-command parsers
  (`DPOP_ATtach`, `DPOP_OPtion`, `DpOp_PSf`, `AsOp_opt`, `AsOp_result`). Each
  is stated as a function of its segment buffer, with hand-written scanners in
  place of the regular expressions. Each has a read-back lemma: a buffer built
  from values gives those values back.
- `ToolOutputs` (`tool_output.dfy`): the variant chain of
  `astwro/exttools/output_processors.py`. Its keeper does not wait for a
  runner, and each provider has `success` and `raise_if_error`.
- `Runners` (`runner.dfy`): the runner, with its command script, states,
  processing steps, collection of results and file staging. Class `Allstar`
  holds the fields and methods of the `Runner` base class together with those
  the `Allstar` subclass adds. The model therefore covers `Runner` only as
  `Allstar` uses it.
- `RunnerFiles` (`runner_files.dfy`): the hashed local names of
  `_runner_dir_file_name`, `_prepare_dir`, `absolute_path`, the plan of
  `_prepare_io_file`, linking and copying back.
- `AllstarText` (`allstar_text.dfy`): the option script `_pre_run` writes,
  the option dictionary `set_options` builds, and the answers `ALlstar` types.
- `TempDirs` (`tmpdir.dfy`): `TmpDir`, a runner directory that is either a
  fresh temporary directory owned by the object or an existing one it only
  uses.
- `CycleFiles` (`cycle_file.dfy`): `CycleFile`, a series of files named by a
  zero-padded counter, with a symbolic link to the newest one.
- `FileSystem`, `Paths` (`filesystem.dfy`, `paths.dfy`): the filesystem as a
  map from paths to files, directories and links, with the `os`, `shutil`,
  `tempfile` and `posixpath` calls the core makes.
- `DaoFiles`, `DaoTypes`, `FileFormats` (`daofiles.dfy`, `daotypes.dfy`,
  `fileformats.dfy`): the header reader, parser and dumper of
  `astwro/starlist/daofiles.py`, the file-type guess, the column-type lookup
  and conversion, and the tables of `astwro/starlist/fileformats.py`.
- `CoordTools`, `CoordMatching` (`coord_tools.dfy`, `coord_match.dfy`):
  `grouping` and `_prepare_labels`, and the index sets of `CoordMatch`.
- `GrepFitsHdr` (`grep_fits_hdr.dfy`): `grep`, `printmatch` and the exit code
  of `grepfitshdr`.
- `Common` (`common.dfy`): results and the exceptions by Python class, exact
  decimals, and string helpers (`str.split`, `splitlines`, character classes).

What the model takes as parameters instead of computing:

- The external program is an oracle `exec`. Given the runner directory, the
  script and the files, it returns the output bytes, the error bytes (each
  byte as the character with that code), the exit code and the files
  afterwards.
- A non-blocking `run()` takes the flag `capturedNow`. It says whether the
  short first `communicate` finished in time.
- `hashlib.md5(...).hexdigest()` is an uninterpreted function `md5` to
  32 hexadecimal digits.
- Float formatting (`'%.2f'` and the `'{:8.2f}'`-style formats) is a
  formatter parameter.
- A regular-expression search over header lines (grepfitshdr) and the
  nearest-neighbour search (CoordMatch) are given as a predicate and as
  input sequences.
- The random part of a `mkdtemp` name is given as a parameter.
- The environment (`Env`) gives the working directory, `HOME`, the
  temporary directory and the home directories of the password database.

## Model

| member | source | states |
|---|---|---|
| OutputChain.SegmentEnd | astwro/pydaophot/OutputProviders.py:61-69 | a plain provider reads nothing; any other processor reads at least one line if there is one, no line before the last of its segment is a last line, and a segment that stops before the end stops right after a last line |
| OutputChain.SegmentEndIsFirstLast | astwro/pydaophot/OutputProviders.py:66-69 | a segment ends no later than just after the first last line from where it starts |
| OutputChain.SegmentStep | astwro/pydaophot/OutputProviders.py:63-69 | one line of a segment either ends it or the segment goes on past it |
| OutputChain.AppendedSnoc | astwro/pydaophot/OutputProviders.py:79 | reading one more line adds that line to a buffered processor's buffer and nothing to another's |
| OutputChain.ReadSegment | astwro/pydaophot/OutputProviders.py:61-69 | the `for line in stream` loop stops at the segment end, and a buffered processor's buffer grows by every line read, the last one included (also lines 75-80) |
| OutputChain.ConsumeNode | astwro/pydaophot/OutputProviders.py:47-48 | `_consume` gives the processor its stream, moves the stream to the segment end and grows the buffer by the lines read; class, predecessor, cache, other processors and other streams are unchanged |
| OutputChain.ConsumeInOrder | astwro/pydaophot/OutputProviders.py:45-49 | the processors of a resolution consume one after another from one stream |
| OutputChain.Walk | astwro/pydaophot/OutputProviders.py:45-49 | the walk from a processor is empty exactly when it holds a stream; otherwise it starts there, follows predecessors over unresolved processors only, and ends at the keeper, a resolved processor or an unlinked one |
| OutputChain.Reverse | astwro/pydaophot/OutputProviders.py:47-48 | the walk read from its far end, which is the order in which processors consume |
| OutputChain.WalkDistinct | astwro/pydaophot/OutputProviders.py:45-49 | the walk never visits a processor twice |
| OutputChain.RankDecreases | astwro/pydaophot/OutputProviders.py:47 | along the walk the rank of processors strictly decreases, so it terminates |
| OutputChain.GrowthsFrame | astwro/pydaophot/OutputProviders.py:79 | what processors added to their buffers depends only on their buffers before and after |
| OutputChain.ConsumeInOrderFrame | astwro/pydaophot/OutputProviders.py:45-49 | processors not in the resolution are left as they were |
| OutputChain.ConsumeInOrderAdvances | astwro/pydaophot/OutputProviders.py:63 | the stream only moves forward and keeps its lines |
| OutputChain.GrowthOfFirst | astwro/pydaophot/OutputProviders.py:75-80 | the first buffered processor to consume adds exactly the lines it read |
| OutputChain.ConsumeInOrderPartitions | astwro/pydaophot/OutputProviders.py:61-80 | in-order, strict segmentation: what buffered processors add to their buffers, in consumption order, is exactly the text the stream moved over |
| OutputChain.RestStillBuffered | astwro/pydaophot/OutputProviders.py:45-49 | after the first processor consumed, the rest of the resolution still consists of distinct buffered processors |
| OutputChain.ConsumeNodeKeepsRest | astwro/pydaophot/OutputProviders.py:47-48 | one processor's consumption leaves the others of the resolution unchanged |
| OutputChain.PartitionStep | astwro/pydaophot/OutputProviders.py:61-80 | the first segment followed by the segments of the rest is the text the stream moved over |
| OutputChain.ConsumeInOrderCaches | astwro/pydaophot/OutputProviders.py:155-161 | memoised values stay true to their buffers while unresolved processors consume (also lines 258-262, 316-320) |
| OutputChain.ReverseDistinct | astwro/pydaophot/OutputProviders.py:45-49 | read from the far end, the walk still lists each processor once |
| OutputChain.ReverseReverse | astwro/pydaophot/OutputProviders.py:45-49 | reversing twice gives the walk back |
| OutputChain.ConsumeInOrderKeeps | astwro/pydaophot/OutputProviders.py:45-49 | consumption changes no processor's class, predecessor or memoised values |
| OutputChain.WalkLinked | astwro/pydaophot/OutputProviders.py:45-49 | asked for its stream, the last processor of an unresolved chain walks the whole chain back to the keeper |
| OutputChain.ReverseSnoc | astwro/pydaophot/OutputProviders.py:47-48 | the processor nearest the keeper consumes first |
| OutputChain.ConcatSplit | astwro/pydaophot/OutputProviders.py:79 | the text of consecutive lines splits at any line boundary |
| OutputChain.InFront | astwro/pydaophot/Runner.py:377-381 | a processor put in front follows the keeper and the old head follows it; every other processor is unchanged |
| OutputChain.ConsumeInOrderLines | astwro/pydaophot/OutputProviders.py:63 | consumption never changes the lines of any stream |
| OutputChain.ConsumeInOrderResolves | astwro/pydaophot/OutputProviders.py:46-49 | every processor of the resolution ends up holding the stream, and one that held it keeps it |
| OutputChain.Processors.constructor | astwro/pydaophot/Runner.py:78 | no processors, no streams and a keeper with no stream |
| OutputChain.Processors.Add | astwro/pydaophot/OutputProviders.py:36-37 | a new processor of the class given, with the predecessor given, no stream, an empty buffer and nothing memoised |
| OutputChain.Processors.AddInFront | astwro/pydaophot/Runner.py:377-381 | a new processor in front of the head, which is re-pointed to it |
| OutputChain.Processors.Open | astwro/pydaophot/Runner.py:349 | a new `StringIO` over the lines of the text, at its start |
| OutputChain.Processors.SetKeeperStream | astwro/pydaophot/Runner.py:76 | the keeper's stream is set to the one given, or to none (also lines 349) |
| OutputChain.Processors.SetCache | astwro/pydaophot/OutputProviders.py:155-161 | memoising changes only that processor's cache |
| OutputChain.Processors.Consume | astwro/pydaophot/OutputProviders.py:47-48 | one processor's consumption, as `ConsumeNode` |
| OutputChain.Processors.ConsumeAll | astwro/pydaophot/OutputProviders.py:45-49 | the unresolved processors of a resolution consume in turn, as `ConsumeInOrder` |
| OutputProviders.PicSizeHeight | astwro/pydaophot/OutputProviders.py:103 | `\s+([0-9]+)` at the start of a text: a non-empty digit group |
| OutputProviders.PicSizeMatch | astwro/pydaophot/OutputProviders.py:103 | `([0-9]+)\s+([0-9]+)` at the start of a text: two non-empty digit groups |
| OutputProviders.PicSizeAt | astwro/pydaophot/OutputProviders.py:103 | `r_pic_size` matches at a position only where its look-behind `Picture size:` and three blanks holds |
| OutputProviders.SearchPicSize | astwro/pydaophot/OutputProviders.py:138 | `search`: the leftmost matching position, or none when nothing matches |
| OutputProviders.PictureSize | astwro/pydaophot/OutputProviders.py:134-141 | an error embedding the buffer exactly when the pattern matches nowhere; otherwise the two integers of the leftmost match |
| OutputProviders.PicSizeAfterLabel | astwro/pydaophot/OutputProviders.py:103 | after the label and three blanks the pattern matches the printed width and height |
| OutputProviders.NoPicSizeBeforeLabel | astwro/pydaophot/OutputProviders.py:103 | no match starts before the first label ends |
| OutputProviders.PictureSizeFirst | astwro/pydaophot/OutputProviders.py:138-141 | the size read is taken from the leftmost match |
| OutputProviders.PictureSizeReadsBack | astwro/pydaophot/OutputProviders.py:134-141 | `picture_size` reads back the width and height printed after the first `Picture size:` label |
| OutputProviders.SignLen | astwro/pydaophot/OutputProviders.py:105 | the optional sign `\-?` of a value text |
| OutputProviders.NumberEnd | astwro/pydaophot/OutputProviders.py:105 | `\-?[0-9]+\.[0-9]*` ends after where it starts |
| OutputProviders.OptAt | astwro/pydaophot/OutputProviders.py:105 | `r_opt` at a position ends after it, with the key and the value text |
| OutputProviders.NumberShape | astwro/pydaophot/OutputProviders.py:105 | what the number scan matches is a value text |
| OutputProviders.NumberOf | astwro/pydaophot/OutputProviders.py:105 | a value text followed by a non-digit is matched whole |
| OutputProviders.OptAtShape | astwro/pydaophot/OutputProviders.py:105 | a match of `r_opt` is a two-letter key with a value text |
| OutputProviders.FindAllOptsShape | astwro/pydaophot/OutputProviders.py:157 | every pair `findall` yields is a two-letter key with a value text |
| OutputProviders.DictOf | astwro/pydaophot/OutputProviders.py:157 | `dict(pairs)` has exactly the pairs' keys |
| OutputProviders.DictOfLastWins | astwro/pydaophot/OutputProviders.py:157 | a key maps to the value of its last pair |
| OutputProviders.KeysOf | astwro/pydaophot/OutputProviders.py:157-158 | a key is present exactly when some pair has it |
| OutputProviders.DictOfShape | astwro/pydaophot/OutputProviders.py:157 | every entry of the dictionary is a two-letter key with a value text |
| OutputProviders.OptionsOf | astwro/pydaophot/OutputProviders.py:150-161 | success exactly when some pair has the required key (`RE`, or `WA` for ALLSTAR); then `dict` of all pairs; otherwise the error embedding the buffer (also lines 289-300) |
| OutputProviders.OptionsAreValueTexts | astwro/pydaophot/OutputProviders.py:163-164 | the options hold value texts only, so the `float` of `get_option` cannot fail |
| OutputProviders.OptionKeyOf | astwro/pydaophot/OutputProviders.py:164 | `key[:2].upper()`: at most two characters, upper-cased |
| OutputProviders.GetOption | astwro/pydaophot/OutputProviders.py:163-164 | `KeyError` exactly when that two-letter key is absent; otherwise the number its text denotes (also lines 302-303) |
| OutputProviders.GetOptionByPrefix | astwro/pydaophot/OutputProviders.py:164 | a long name, its upper-cased form and its first two letters read the same option |
| OutputProviders.ListedPairs | astwro/pydaophot/OutputProviders.py:152-154 | each listed name's first two characters with its value |
| OutputProviders.ListingFrom | astwro/pydaophot/OutputProviders.py:157 | a listing after a non-word character reads back as the names' two-letter keys with their values, in order |
| OutputProviders.OptionListingReadsBack | astwro/pydaophot/OutputProviders.py:157 | an options listing `name = value` per line reads back as its two-letter keys with their values |
| OutputProviders.ErrGroupEnd | astwro/pydaophot/OutputProviders.py:120 | `(\d+.\d+) [ ?*]`: the group ends before a blank and a flag, with the engine's backtracking into the first run |
| OutputProviders.PsfAt | astwro/pydaophot/OutputProviders.py:120 | `r_psf_errors` at a position ends after it |
| OutputProviders.PsfAtShape | astwro/pydaophot/OutputProviders.py:120 | a match is a star number in digits with an error text |
| OutputProviders.FindAllPsfShape | astwro/pydaophot/OutputProviders.py:261 | every row `findall` yields is a star number with an error text |
| OutputProviders.ErrValue | astwro/pydaophot/OutputProviders.py:261 | `float` of a captured error text fails with `ValueError` exactly when the character between its digit runs is not one `float` accepts |
| OutputProviders.ErrorRows | astwro/pydaophot/OutputProviders.py:261 | one (star, error) pair per row, in order, or `ValueError` exactly when some error text is refused |
| OutputProviders.PsfErrorsRows | astwro/pydaophot/OutputProviders.py:257-262 | `errors` is the error rows found, converted one by one, or the first conversion's `ValueError` |
| OutputProviders.RowTexts | astwro/pydaophot/OutputProviders.py:120 | one (star, error) text pair per printed row |
| OutputProviders.RowValues | astwro/pydaophot/OutputProviders.py:261 | one (star, error) value per printed row |
| OutputProviders.PsfRowStep | astwro/pydaophot/OutputProviders.py:120 | a printed row is the next match, and the search goes on after its flag |
| OutputProviders.PsfRowsFrom | astwro/pydaophot/OutputProviders.py:261 | a table of rows reads back as the rows' texts |
| OutputProviders.FixedErrValue | astwro/pydaophot/OutputProviders.py:261 | `whole.frac` is read as the digits of both parts scaled by the fraction's length |
| OutputProviders.PsfErrorsReadBack | astwro/pydaophot/OutputProviders.py:257-262 | a PSF star table printed row by row reads back as its stars and errors, in order |
| OutputProviders.SearchPsfData | astwro/pydaophot/OutputProviders.py:268 | `r_psf.search`: the leftmost matching position, or none |
| OutputProviders.PsfData | astwro/pydaophot/OutputProviders.py:264-273 | an error embedding the buffer exactly when `r_psf` matches nowhere; otherwise the three groups of the leftmost match |
| OutputProviders.Chi | astwro/pydaophot/OutputProviders.py:275-277 | fails exactly when `data` fails, with its error; otherwise the number of the first group |
| OutputProviders.HwhmXY | astwro/pydaophot/OutputProviders.py:279-281 | fails exactly when `data` fails, with its error; otherwise the numbers of the second and third groups |
| OutputProviders.PsfDataShape | astwro/pydaophot/OutputProviders.py:119 | the three groups of a match are value texts, so neither `chi` nor `hwhm_xy` can fail in `float` |
| OutputProviders.FixedTextValue | astwro/pydaophot/OutputProviders.py:277 | `float` of a signed `whole.frac` is its digits, signed, scaled by the fraction's length |
| OutputProviders.PsfHeadText | astwro/pydaophot/OutputProviders.py:119 | after the heading, its three characters, the line break and the prompts, the numbers are scanned |
| OutputProviders.ChiFromText | astwro/pydaophot/OutputProviders.py:119 | three numbers after blanks are read as the three groups |
| OutputProviders.PsfDataAtText | astwro/pydaophot/OutputProviders.py:119 | where the fit text sits, `r_psf` matches with its three numbers |
| OutputProviders.PsfDataFirst | astwro/pydaophot/OutputProviders.py:268-272 | the data read is that of the leftmost match |
| OutputProviders.NoPsfDataBeforeHeading | astwro/pydaophot/OutputProviders.py:119 | no match starts before the first heading |
| OutputProviders.PsfFitReadsBack | astwro/pydaophot/OutputProviders.py:264-281 | `chi` and `hwhm_xy` read back the numbers printed after the first heading, as the decimals their texts denote |
| OutputProviders.Fields | astwro/pydaophot/OutputProviders.py:125 | `(\d+ +){n}` ends after where it starts |
| OutputProviders.SearchAlls | astwro/pydaophot/OutputProviders.py:318 | `r_alls.search`: the leftmost matching position, or none |
| OutputProviders.StarsNo | astwro/pydaophot/OutputProviders.py:313-320 | `AttributeError` exactly when `r_alls` matches nowhere; otherwise groups 3 and 4 of the leftmost match |
| OutputProviders.AllsTextAt | astwro/pydaophot/OutputProviders.py:125 | the summary line is matched, with its third and fourth counts as the groups |
| OutputProviders.SearchAllsFrom | astwro/pydaophot/OutputProviders.py:318 | where no digit precedes a match, the search finds it |
| OutputProviders.StarsNoReadsBack | astwro/pydaophot/OutputProviders.py:313-320 | the summary line after digit-free text reads back as its third and fourth counts |
| Runners.NewProcessor | astwro/pydaophot/OutputProviders.py:36-37 | building a processor succeeds exactly when every keyword is `prev_in_chain`, and gives the class asked for; any other keyword is a `TypeError` |
| Runners.AllstarProcessorAsWrittenFails | astwro/pydaophot/Allstar.py:150 | the `AsOp_result(profile_photometry_file=..., subtracted_image_file=...)` call of `ALlstar` always raises `TypeError` for the keyword `profile_photometry_file` |
| Runners.AllstarProcessor | astwro/pydaophot/OutputProviders.py:308-311 | the corrected result processor: an `AsOp_result` built without arguments |
| Runners.ChainAppend | astwro/pydaophot/Runner.py:382-386 | appending a processor after the tail keeps the chain well formed: it follows the old tail, becomes the tail, and becomes the head of an empty chain |
| Runners.ChainPrepend | astwro/pydaophot/Runner.py:377-381 | putting a processor in front keeps the chain well formed: it follows the keeper, the old head follows it, and the tail is not moved (an empty chain is left detached) |
| Runners.PrependLinked | astwro/pydaophot/Runner.py:378-380 | the processor put in front of a non-empty chain becomes its first link |
| Runners.AsideLinked | astwro/pydaophot/Runner.py:378-381 | re-pointing a processor outside the chain leaves the chain's links as they were |
| Runners.ChainKept | astwro/pydaophot/OutputProviders.py:45-49 | consuming and memoising never change a predecessor reference, so the chain stays well formed |
| Runners.TailWalksChain | astwro/pydaophot/OutputProviders.py:45-49 | asked from its tail, a chain of unresolved processors is walked back to the keeper over exactly the appended processors, in reverse order |
| Runners.InFrontKept | astwro/pydaophot/Runner.py:377-381 | a processor put in front re-points at most one predecessor and changes no class or memoised value |
| Runners.StatusKept | astwro/pydaophot/Runner.py:65-80 | adding processors and re-pointing predecessors keep the run-cycle fields consistent with the processors |
| Runners.CollectFiles | astwro/pydaophot/Runner.py:350-357 | after a run, a negative exit code raises `ExitError` (when set to raise) and copies nothing back; otherwise every outside output file is copied back; the only errors are `ExitError` and `OSError` |
| Runners.FirstNonAscii | astwro/pydaophot/Runner.py:344-347 | the position the `'ascii'` codec reports is the first code at or above 128, and it is the text's length exactly when the text is ASCII |
| Runners.CollectedOk | astwro/pydaophot/Runner.py:346-350 | collected output, error text and exit code, stored together with the keeper's new stream over the output's lines, keep the run-cycle fields consistent |
| Runners.StatusConsumed | astwro/pydaophot/OutputProviders.py:61-69 | consuming segments keeps the run-cycle fields consistent |
| Runners.LocalName | astwro/pydaophot/Runner.py:258-281 | the local name of a path is a bare file name; that of an empty path is empty; a bare name outside the runner directory is its own local name |
| Runners.Registered | astwro/pydaophot/Runner.py:268-270 | preparing an outside output adds its absolute path to the outside output files and nothing else; no path is listed twice |
| Runners.Answers | astwro/pydaophot/Allstar.py:146-148 | the answers of `ALlstar` are never empty |
| Runners.Allstar.New | astwro/pydaophot/Allstar.py:28-53 | `Allstar(dir, image, allstaropt, options, batch)`: a directory argument of another type raises `RunnerTypeError`; otherwise the runner directory is a new owned one, the path given (not owned) or the `TmpDir` given, `allstar.opt` is linked into it, and the runner starts idle, set to raise, with options `{'WA': 0}` updated by the given ones |
| Runners.Allstar.Of | astwro/pydaophot/Runner.py:52-63 | a new runner is idle, with no processors and no stream, the settings given and set to raise on a bad exit code |
| Runners.Allstar.StatesExclusive | astwro/pydaophot/Runner.py:313-335 | ready to run, running and finished exclude each other, and none of them holds exactly when there are no commands and no process |
| Runners.Allstar.Reset | astwro/pydaophot/Runner.py:65-80 | `_reset` (with `Allstar._reset`, Allstar.py:55-58): no output, error text, exit code, process, commands, outside output files, option or result processor; the chain is the keeper alone, with no stream; the processors are kept |
| Runners.Allstar.InsertProcessingStep | astwro/pydaophot/Runner.py:366-387 | the text goes before or after the commands; a non-provider raises `RunnerTypeError` after the text is added; a provider in front follows the keeper, the old head is re-pointed to it and the tail stays; a provider at the end follows the old tail and becomes the tail, and the head of an empty chain |
| Runners.Allstar.PutInFront | astwro/pydaophot/Runner.py:377-381 | the provider-in-front branch of `_insert_processing_step` as a new state |
| Runners.Allstar.PutAtEnd | astwro/pydaophot/Runner.py:382-386 | the provider-at-end branch of `_insert_processing_step` as a new state |
| Runners.Allstar.CopyBack | astwro/pydaophot/Runner.py:356-357 | the outside output files are overwritten with their local copies, in order; the first failing copy raises and the earlier copies stay |
| Runners.Allstar.Communicate | astwro/pydaophot/Runner.py:343-357 | output that is not ASCII raises `UnicodeDecodeError` at the first such byte with nothing stored; ASCII output with an error text that is not ASCII raises it with only the output stored; otherwise output, error text and exit code are stored, the keeper gets a new stream over the output's lines, and the exit code and the copy-back decide the outcome as `CollectFiles` says; the files keep what the process did in every case (`Communicated`) |
| Runners.Allstar.PreRun | astwro/pydaophot/Allstar.py:74-89 | without an `ALlstar` command, `RunnerException` and no change; otherwise the option script goes in front of the commands, read by a new `AsOp_opt` that becomes `OPtion_result` |
| Runners.Allstar.Run | astwro/pydaophot/Runner.py:286-311 | `_pre_run` first; a missing executable raises `OSError`; a script that is not ASCII raises `UnicodeEncodeError` at its first such character, with the process started on empty input and nothing collected; otherwise the process runs on the full script, and with `wait`, or a first `communicate` finishing in time, the output is collected as `Communicate` says, otherwise the runner is left running |
| Runners.Allstar.StartProcess | astwro/pydaophot/Runner.py:288-307 | the process part of `run`: `OSError` with no change; in both branches `UnicodeEncodeError` for commands that are not ASCII (Runner.py:344), the process started with nothing sent; else left running, or output collected as `Communicate` says; nothing but the process fields, streams and files changes (also lines 343-344) |
| Runners.Allstar.WaitForResults | astwro/pydaophot/Runner.py:337-341 | a running process has its output collected as `Communicate` says, decode errors included; a ready runner runs and waits; an idle or finished runner is left unchanged; on success it is neither running nor ready |
| Runners.Allstar.GetReadyForCommands | astwro/pydaophot/Runner.py:360-364 | a running process is waited for and a finished runner is reset to idle; waiting commands stay; the only errors are `ExitError`, `OSError` and `UnicodeDecodeError`, all from waiting; processors are kept |
| Runners.Allstar.GetOutputStream | astwro/pydaophot/OutputProviders.py:45-49 | a processor with a stream returns it unchanged; otherwise the walk back over predecessors ends at a cached processor, an unlinked one (`AttributeError`), or the keeper, and the walked processors read their segments from that stream, farthest first |
| Runners.Allstar.KeeperStream | astwro/pydaophot/OutputProviders.py:21-25 | the keeper first makes the runner wait for its results, then gives its stream, or raises when there is none |
| Runners.Allstar.Resolve | astwro/pydaophot/OutputProviders.py:47-48 | the listed unresolved processors read their segments from one stream, in order |
| Runners.Allstar.GetBuffer | astwro/pydaophot/OutputProviders.py:94-97 | the buffer of a buffered processor is its segment, read first if need be; a processor already resolved returns its buffer without any change |
| Runners.Allstar.Options | astwro/pydaophot/OutputProviders.py:150-161 | `options` of `DPOP_OPtion` (key `RE`) and `AsOp_opt` (key `WA`, OutputProviders.py:289-300): the parsed listing of the buffer, or the error; the first success is memoised and then asks nothing again |
| Runners.Allstar.GetOption | astwro/pydaophot/OutputProviders.py:163-164 | `get_option` looks up the key's first two letters upper-cased in `options` and reads it as a number |
| Runners.Allstar.Errors | astwro/pydaophot/OutputProviders.py:257-262 | `errors` of `DpOp_PSf`: the (star, error) pairs of the buffer's error rows, memoised once read |
| Runners.Allstar.Data | astwro/pydaophot/OutputProviders.py:264-273 | `data` of `DpOp_PSf`: the three numbers after the PSF heading, or an error embedding the buffer; memoised once found |
| Runners.Allstar.Chi | astwro/pydaophot/OutputProviders.py:275-277 | `chi` is the first number of `data` |
| Runners.Allstar.HwhmXY | astwro/pydaophot/OutputProviders.py:279-281 | `hwhm_xy` is the second and third numbers of `data` |
| Runners.Allstar.PictureSize | astwro/pydaophot/OutputProviders.py:134-141 | `picture_size` of `DPOP_ATtach`: the two numbers after `Picture size:`, read from the buffer each time |
| Runners.Allstar.StarsNo | astwro/pydaophot/OutputProviders.py:313-320 | `stars_no` of `AsOp_result`: the third and fourth numbers of the summary line, memoised once found |
| Runners.Allstar.LinkToRunnerDir | astwro/pydaophot/Runner.py:168-184 | the entry of that name (the source's base name by default) in the runner directory is replaced by a link to the expanded source |
| Runners.Allstar.RmFromRunnerDir | astwro/pydaophot/Runner.py:210-215 | the file goes if it is there; errors are swallowed |
| Runners.Allstar.PrepareIoFile | astwro/pydaophot/Runner.py:258-281 | an empty path gives two empty names and no change; an outside output is registered and its local copy removed; an outside input not registered as an output is linked in, and a failing link is its only error |
| Runners.Allstar.RegisterOutput | astwro/pydaophot/Runner.py:270 | the absolute path joins the outside output files |
| Runners.Allstar.SetOptions | astwro/pydaophot/Allstar.py:108-119 | a file name without a value is linked in as `allstar.opt`; a key with a value, a list of pairs or a `dict` updates the options; a list or `dict` with a value raises `TypeError` |
| Runners.Allstar.PrepareInput | astwro/pydaophot/Runner.py:254-256 | an input's local name, with only `OSError` from linking |
| Runners.Allstar.PrepareOutput | astwro/pydaophot/Runner.py:250-252 | an output's local name, registered when outside |
| Runners.Allstar.PrepareAllstarFiles | astwro/pydaophot/Allstar.py:140-148 | the five files are prepared in order and the answers name their local names; a failing link raises before any output is registered |
| Runners.Allstar.AllstarCommand | astwro/pydaophot/Allstar.py:121-155 | as written: after waiting for and clearing a finished run and staging the files, the call raises `TypeError`; no processor is inserted and `ALlstars_result` is not set |
| Runners.Allstar.StageAsWritten | astwro/pydaophot/Allstar.py:140-150 | staging as written: only the outside outputs are registered, then `TypeError` (or the link's `OSError` with no change) |
| Runners.Allstar.AllstarCommandCorrected | astwro/pydaophot/Allstar.py:121-155 | as intended: the answers go after the commands with a new `AsOp_result` as `ALlstars_result`; in batch mode the runner is ready to run, otherwise it has run the options script plus the commands |
| Runners.Allstar.Stage | astwro/pydaophot/Allstar.py:140-154 | the corrected staging and, outside batch mode, the run |
| Runners.Allstar.StageAndRun | astwro/pydaophot/Allstar.py:153-154 | outside batch mode the staged script is run at once and waited for |
| Runners.Allstar.RunAndWait | astwro/pydaophot/Runner.py:286-301 | `run()` with an `ALlstar` command in place runs the options script plus the commands and keeps `ALlstars_result` |
| Runners.Allstar.StageAllstar | astwro/pydaophot/Allstar.py:140-152 | the files, answers and result processor of `ALlstar`, with no process started |
| Runners.Allstar.AppendAllstarStep | astwro/pydaophot/Allstar.py:151-152 | the answers go at the end of the commands and a new `AsOp_result` becomes `ALlstars_result` |
| Runners.Allstar.Memoise | astwro/pydaophot/OutputProviders.py:155-161 | memoising a property changes only that processor's cache |
| RunnerFiles.HexDigest | astwro/pydaophot/Runner.py:248 | `hexdigest()` of a byte string; hashing text raises `TypeError` |
| RunnerFiles.RunnerDirFileNameAsWrittenFails | astwro/pydaophot/Runner.py:248 | as written under Python 3, `_runner_dir_file_name` raises `TypeError` for every path |
| RunnerFiles.RunnerDirFileName | astwro/pydaophot/Runner.py:236-248 | prefix, six hex digits of the digest of the signature (the path by default), `_`, the base name and the suffix |
| RunnerFiles.LocalNameParts | astwro/pydaophot/Runner.py:248 | the prefix, digest part, base name and suffix can be read back from a local name |
| RunnerFiles.LocalNameDecodes | astwro/pydaophot/Runner.py:248 | two files share a local name only when their base names and digest prefixes agree |
| RunnerFiles.LocalNameIsBare | astwro/pydaophot/Runner.py:248 | with no `/` in prefix and suffix, a local name is a bare file name |
| RunnerFiles.TmpDirWith | astwro/utils/__init__.py:5 | `tmpdir` takes `use_exiting` for an existing directory; any other keyword is a `TypeError` |
| RunnerFiles.PrepareDir | astwro/pydaophot/Runner.py:151-160 | corrected: no directory gives a new temporary one, a path an existing one, a `TmpDir` itself; anything else raises `RunnerTypeError` |
| RunnerFiles.PrepareDirAsWrittenRejectsPaths | astwro/pydaophot/Runner.py:155 | as written every path raises `TypeError`; on every other argument the two versions agree |
| RunnerFiles.AbsolutePath | astwro/pydaophot/Runner.py:226-232 | a bare file name is taken in the runner directory; anything else is expanded to an absolute path |
| RunnerFiles.PlanIo | astwro/pydaophot/Runner.py:263-276 | a path into the runner directory is cut to its base name; a bare name is local; anything else is outside, named by the digest of its expanded path |
| RunnerFiles.LinkIn | astwro/pydaophot/Runner.py:179-184 | the old entry is removed, errors ignored, then a link to the source takes its place |
| RunnerFiles.LinkInReplaces | astwro/pydaophot/Runner.py:179-184 | a link replaces any file or link of that name; it fails only on a directory or a missing runner directory, and a file or link of that name is gone either way |
| RunnerFiles.RemoveQuietly | astwro/pydaophot/Runner.py:210-215 | a file or link goes; errors are ignored |
| RunnerFiles.AddTo | astwro/pydaophot/Runner.py:270 | `set.add` keeping every earlier member and adding the new one once |
| RunnerFiles.AddToKeepsDistinct | astwro/pydaophot/Runner.py:270 | no path is listed twice |
| RunnerFiles.CopyBackIn | astwro/pydaophot/Runner.py:356-357 | each outside output file gets its local copy's contents, in order; the first failure raises `OSError` |
| RunnerFiles.CopyBackAppend | astwro/pydaophot/Runner.py:356-357 | copying back a longer list is copying back its first part, then, if that succeeds, the rest |
| RunnerFiles.CopyBackOne | astwro/pydaophot/Runner.py:357 | copying back one file is that one copy |
| TempDirs.CloneTreeCopies | astwro/utils/TmpDir.py:56-59 | a clone of an owned directory is a copy of everything below it, and nothing outside the clone changes |
| TempDirs.ReprDecodes | astwro/utils/TmpDir.py:46-47 | the representation tells an owned directory from a borrowed one and names its path (`''` and `'none'` print alike) |
| TempDirs.TmpDir.New | astwro/utils/TmpDir.py:19-32 | without `use_existing`, `mkdtemp` makes a new directory that the object owns, and its failure is the call's; with it the path is the one given, not owned, and nothing changes |
| TempDirs.TmpDir.Clone | astwro/utils/TmpDir.py:52-62 | an owned directory is copied into a new temporary directory with the same prefix and base; a borrowed one is shared by a new object |
| TempDirs.TmpDir.RmDir | astwro/utils/TmpDir.py:64-70 | an owned directory goes with its contents; a borrowed one is left; errors are swallowed |
| TempDirs.TmpDir.Repr | astwro/utils/TmpDir.py:46-50 | `Tmp dir:` or `Ext dir:`, then the path |
| ToolOutputs.ToolChain.SuccessOf | astwro/exttools/output_processors.py:54-71 | `success` of a base-class provider is true in every chain state, with or without a stream, since the base `raise_if_error` looks at nothing |
| ToolOutputs.BaseSegments | astwro/exttools/output_processors.py:42-46 | of the lines left, a plain provider reads none, a line processor the next one, and a buffered processor all of them, buffering their concatenation (also lines 79-93, 99-104) |
| ToolOutputs.ToolChain.constructor | astwro/exttools/output_processors.py:22-25 | a keeper with no stream and no providers |
| ToolOutputs.ToolChain.Keep | astwro/exttools/output_processors.py:19-25 | setting the keeper's stream gives it a new stream over the text's lines |
| ToolOutputs.ToolChain.Add | astwro/exttools/output_processors.py:37-40 | a new provider of a base class with its own predecessor and no stream of its own |
| ToolOutputs.ToolChain.GetOutputStream | astwro/exttools/output_processors.py:27-30 | a provider with a stream returns it; otherwise the walk ends at a cached provider, an unlinked one (`AttributeError`) or the keeper, which raises without a stream; never waits for a runner (also lines 48-52) |
| ToolOutputs.ToolChain.Resolve | astwro/exttools/output_processors.py:50-51 | the listed unresolved providers read their segments from one stream, in order |
| ToolOutputs.ToolChain.GetBuffer | astwro/exttools/output_processors.py:110-113 | a buffered processor's buffer, read first if need be |
| AllstarText.Lookup | astwro/pydaophot/Allstar.py:47-49 | `d.get(k)`: something exactly when some entry has the key |
| AllstarText.DictSet | astwro/pydaophot/Allstar.py:116-119 | `d[k] = v`: a present key keeps its place and takes the value, a new key goes last, and keys stay distinct |
| AllstarText.DictSetLookup | astwro/pydaophot/Allstar.py:116-119 | after `d[k] = v`, `k` maps to `v` and every other key to what it mapped to |
| AllstarText.LastValue | astwro/pydaophot/Allstar.py:118 | the value the last pair with a key gives it, and none when no pair has it |
| AllstarText.LookupAt | astwro/pydaophot/Allstar.py:47-49 | in a dictionary, looking up an entry's key gives that entry's value |
| AllstarText.LastValueIsLookup | astwro/pydaophot/Allstar.py:118 | with distinct keys, the last pair for a key is its only one |
| AllstarText.DictUpdateLastWins | astwro/pydaophot/Allstar.py:49 | after `update`, the last pair for a key decides it, and other keys keep their values (also lines 119) |
| AllstarText.DictUpdateDistinct | astwro/pydaophot/Allstar.py:49 | `update` keeps keys distinct (also lines 119) |
| AllstarText.InitialOptions | astwro/pydaophot/Allstar.py:47-49 | the starting options are a dictionary |
| AllstarText.InitialOptionsLookup | astwro/pydaophot/Allstar.py:47-49 | each key starts with the given value if there is one, else the default `{'WA': 0}` one |
| AllstarText.SetEntries | astwro/pydaophot/Allstar.py:85 | only the options whose value is not `None` are written |
| AllstarText.OptionLineIsLine | astwro/pydaophot/Allstar.py:85 | one `key=value` option is one line |
| AllstarText.OptionsScriptLines | astwro/pydaophot/Allstar.py:79-86 | ALLSTAR reads the option block as one `key=value` line per set option, in dictionary order, then what follows |
| AllstarText.OptionsScriptReadsBack | astwro/pydaophot/Allstar.py:79-86 | the option block is the set options' lines and one empty line |
| AllstarText.ImageFile | astwro/pydaophot/Allstar.py:135-138 | the image is the argument, else the runner's image, else `i.fits`, and never empty |
| AllstarText.NameLineIsLine | astwro/pydaophot/Allstar.py:146 | a file name and a line break make one line |
| AllstarText.AllstarCommandsParts | astwro/pydaophot/Allstar.py:146-148 | the answers are the five names one per line, the last line only when a subtracted image is asked for |
| AllstarText.FourLines | astwro/pydaophot/Allstar.py:146 | four full lines in front of a text are the first four lines read |
| AllstarText.LastAnswer | astwro/pydaophot/Allstar.py:147-148 | the subtracted-image answer is one line, or nothing |
| AllstarText.AllstarCommandsLines | astwro/pydaophot/Allstar.py:146-148 | ALLSTAR reads the four file names, and the subtracted-image name only when one was asked for, one per line |
| CycleFiles.Pad3 | astwro/utils/CycleFile.py:27 | `'{:03d}'` of a counter: digits of its value, at least three of them, exactly three below 1000, and a sign before the digits of a negative one |
| CycleFiles.ZeroPad | astwro/utils/CycleFile.py:27 | padding with zeros to the width, never shortening |
| CycleFiles.Pad3Injective | astwro/utils/CycleFile.py:27 | different counters give different counter texts |
| CycleFiles.FileName | astwro/utils/CycleFile.py:52 | the file name is base name, counter text and extension, in that order |
| CycleFiles.FileNamesDistinct | astwro/utils/CycleFile.py:52-53 | each counter value names its own file, and its own path |
| CycleFiles.FileNameAbs | astwro/utils/CycleFile.py:52-53 | a file name is absolute exactly when the base name is |
| CycleFiles.Relink | astwro/utils/CycleFile.py:72-74 | whatever `os.path.exists` sees at the link is removed, then the link is made; a dangling link there is not removed and makes the symlink fail |
| CycleFiles.RelinkTree | astwro/utils/CycleFile.py:72-74 | after a failed relink the tree is unchanged, or has lost only the old link |
| CycleFiles.LinkStep | astwro/utils/CycleFile.py:68-74 | corrected `_link`: nothing unless links are wanted and a file was opened; otherwise the link names the file's absolute path |
| CycleFiles.LinkStepAsWritten | astwro/utils/CycleFile.py:68-74 | `_link` as written: the link text is `filepath` as given |
| CycleFiles.LinkNamesFile | astwro/utils/CycleFile.py:74 | with the corrected text, the link resolves to the file it was made for |
| CycleFiles.NextFileLinksPrevious | astwro/utils/CycleFile.py:51-58 | a successful `next_file` leaves the link naming the file opened before it, and an empty new file at the new path |
| CycleFiles.WrittenReads | astwro/utils/CycleFile.py:55-57 | a file opened for writing reads back empty |
| CycleFiles.ResolveWritten | astwro/utils/CycleFile.py:55-57 | writing at the end of a chain of links keeps the chain leading there |
| CycleFiles.CloseLinksNewest | astwro/utils/CycleFile.py:62-65 | a successful `close` leaves the link naming the newest file |
| CycleFiles.LinkFailureKeeps | astwro/utils/CycleFile.py:72-74 | a failed `_link` leaves the tree as it was, or without the old link |
| CycleFiles.DanglingCourse | astwro/utils/CycleFile.py:72-74 | a link whose text names nothing from the link's directory is not removed on the next relink, which then fails |
| CycleFiles.RelativeLinkDangles | astwro/utils/CycleFile.py:74 | as written, with a relative `path` the link dangles and the third `next_file` raises |
| CycleFiles.DanglingRun | astwro/utils/CycleFile.py:44-74 | the as-written three calls over one directory: two succeed, the third fails, and the link left dangling names the first file's relative path |
| CycleFiles.RelativeLinkCorrected | astwro/utils/CycleFile.py:74 | with the link text corrected to the absolute path, the same three calls succeed and the link names the second file |
| CycleFiles.LiveRun | astwro/utils/CycleFile.py:44-74 | the corrected three calls over one directory all succeed and the link names the second file |
| CycleFiles.CycleFile.constructor | astwro/utils/CycleFile.py:9-32 | counter 0, no open file and no file path, with the naming settings given |
| CycleFiles.CycleFile.Link | astwro/utils/CycleFile.py:68-74 | the tree and outcome of the corrected `_link` |
| CycleFiles.CycleFile.NextFile | astwro/utils/CycleFile.py:44-59 | the counter moves on by one or is set; with `auto_close` the previous handle is closed; the link is pointed at the previous file, then the new file is opened and becomes `filepath`; a failing step raises and keeps `filepath` |
| CycleFiles.CycleFile.Close | astwro/utils/CycleFile.py:62-65 | the open handle is closed, then the link is pointed at the newest file |
| DaoFiles.WordLen | astwro/starlist/daofiles.py:198 | the first word of `str.split()` is the leading run of characters that are not whitespace, ended by whitespace or the end; whitespace is every character `str.isspace()` holds for, U+0085, U+00A0, U+1680, U+2000 to U+200A, U+2028, U+2029, U+202F, U+205F and U+3000 included |
| DaoFiles.WordsAfterSpace | astwro/starlist/daofiles.py:198 | leading whitespace does not change what `str.split()` returns |
| DaoFiles.WordsOfWord | astwro/starlist/daofiles.py:198 | a word followed by whitespace or nothing is the first item `str.split()` returns |
| DaoFiles.CharAt | astwro/starlist/daofiles.py:108 | the position of the first separator, and no separator before it |
| DaoFiles.SplitJoin | astwro/starlist/daofiles.py:7 | `split(c)` of pieces joined by `c`, none containing `c`, gives the pieces back (also lines 108) |
| DaoFiles.NonEmptyPieces | astwro/starlist/daofiles.py:7 | the non-empty pieces of the first line are its keys, whatever the blanks between them |
| DaoFiles.HeaderKeysWords | astwro/starlist/daofiles.py:7 | the ten header keys are different, not empty and without whitespace |
| DaoFiles.FirstLineSplit | astwro/starlist/daofiles.py:7 | `DAO_file_firstline.split(' ')` gives back the tokens it was built from (also lines 108) |
| DaoFiles.HeaderKeysListed | astwro/starlist/daofiles.py:7 | the non-empty tokens of the first line are the ten keys, one for each of the ten formats (also lines 104-105) |
| DaoFiles.HeaderSpaced | astwro/starlist/daofiles.py:7 | writing every token and a blank after it rebuilds the first line, with one blank more (also lines 108-114) |
| DaoFiles.WordsOfSpaced | astwro/starlist/daofiles.py:108-114 | tokens each followed by a blank split back into the non-empty tokens (also lines 198) |
| DaoFiles.WordsOfPadded | astwro/starlist/daofiles.py:113 | values padded with blanks on the left, one after another, split back into the values (also lines 198) |
| DaoFiles.Padded | astwro/starlist/daofiles.py:113 | each value preceded by its padding, position by position |
| DaoFiles.DumpDaoHdr | astwro/starlist/daofiles.py:95-118 | the loop of `dump_dao_hdr` returns the two lines behind the prefix, each ended by a line break, or the error `float(val)` raises |
| DaoFiles.DumpWalk | astwro/starlist/daofiles.py:107-117 | the token loop, popping one format per key present and stopping (without the blank) at the first missing key, computes the walk `Dump` |
| DaoFiles.Present | astwro/starlist/daofiles.py:110 | the number of keys, from the first, the header has: all before it present, the one at it missing (also lines 115-117) |
| DaoFiles.Cut | astwro/starlist/daofiles.py:110 | the tokens written before the `KeyError` are a prefix of the tokens (also lines 115-117) |
| DaoFiles.FormatAll | astwro/starlist/daofiles.py:112-113 | one formatted value per key, each with the format popped for it, and success exactly when every value formats |
| DaoFiles.CutKeys | astwro/starlist/daofiles.py:108-117 | the keys among the tokens before the first missing key are the header's keys from the first up to it |
| DaoFiles.DumpIsCutAndFormat | astwro/starlist/daofiles.py:107-117 | the walk is the tokens up to the first missing key each followed by a blank, and the values of those keys each in its own format; it fails exactly when one of them cannot be formatted |
| DaoFiles.DumpOrder | astwro/starlist/daofiles.py:107-117 | the dump writes the keys present from the first in the order of the first line; its first line is a prefix of the whole spaced-out line, all of it when no key is missing |
| DaoFiles.Kept | astwro/starlist/daofiles.py:107-117 | the keys written are among the ten and all in the header |
| DaoFiles.DumpKeysInOrder | astwro/starlist/daofiles.py:95-118 | `dump_dao_hdr` writes exactly the header's keys from `NL` up to the first one missing, its first line is the start of `DAO_file_firstline` and a blank (all of it when all ten are present), it fails exactly when one of those values cannot be formatted, and its second line is their formatted values |
| DaoFiles.DumpStopsAtSecond | astwro/starlist/daofiles.py:108-117 | a header without the first key dumps a single blank and an empty second line |
| DaoFiles.Drop | astwro/starlist/daofiles.py:195-196 | `s[n:]`: the text after its first `n` characters |
| DaoFiles.Zip | astwro/starlist/daofiles.py:198 | `zip` pairs the items position by position, up to the shorter list |
| DaoFiles.ZipDict | astwro/starlist/daofiles.py:198 | `dict(zip(ks, vs))` has the keys that have a value, and when no key repeats each has the value at its position |
| DaoFiles.ParsePairs | astwro/starlist/daofiles.py:186-198 | `parse_dao_hdr` maps the words of the first line (after the prefix) to the words of the second, up to the shorter line, each key to its value when no key repeats |
| DaoFiles.DumpThenParse | astwro/starlist/daofiles.py:95-118 | parsing the dumped lines gives back the header keys up to the first missing one, each with its value as formatted (also lines 186-198) |
| DaoFiles.TextStream.Read1 | astwro/starlist/daofiles.py:176 | `read(1)` returns the next character and advances by one, or `''` at the end |
| DaoFiles.TextStream.ReadLine | astwro/starlist/daofiles.py:181-182 | `readline()` returns the text up to and including the next line break, or to the end, and moves there |
| DaoFiles.LineEnd | astwro/starlist/daofiles.py:181-182 | a line read from a position ends at or after it and within the text |
| DaoFiles.LineAt | astwro/starlist/daofiles.py:181-182 | a whole line at a position is exactly what `readline()` reads there |
| DaoFiles.MatchLen | astwro/starlist/daofiles.py:175-179 | how many characters from the position agree with the signature, and that the next one differs or the text ends |
| DaoFiles.ReadSignature | astwro/starlist/daofiles.py:173-179 | the character loop either reads the whole prefix and `' NL'`, or returns the characters it read up to and including the first that differs |
| DaoFiles.TakeHeader | astwro/starlist/daofiles.py:173-182 | the reading of `read_dao_header` takes from the stream what `TakenAt` says and leaves the stream where it says |
| DaoFiles.ReadDaoHeader | astwro/starlist/daofiles.py:162-183 | `read_dao_header` returns no header and the stolen characters, or the two lines parsed, and leaves the stream after what it read |
| DaoFiles.MismatchAt | astwro/starlist/daofiles.py:176-179 | the first character that misses the signature ends the attempt, with all characters read so far |
| DaoFiles.MatchAll | astwro/starlist/daofiles.py:181-182 | after the whole signature the first line is the stolen characters and the rest of the line, the second line is the next one |
| DaoFiles.ReadOutcome | astwro/starlist/daofiles.py:162-183 | a header is found exactly when the text starts with the prefix and `' NL'`; then the two lines from there are taken; otherwise the characters taken agree with the signature up to the last, which differs, or the text ends first |
| DaoFiles.StolenShape | astwro/starlist/daofiles.py:175-179 | without the whole signature the characters taken are at most as many as the signature, agree with it except the last, or are all that was left |
| DaoFiles.DumpedLines | astwro/starlist/daofiles.py:95-118 | a header with `NL` whose values format as blanks and a word dumps a first line starting with `' NL'`, and neither line holds a line break (also lines 173) |
| DaoFiles.DumpReadBack | astwro/starlist/daofiles.py:95-118 | `read_dao_header` of what `dump_dao_hdr` wrote (with the same prefix, then anything) finds the header, takes exactly the two dumped lines and gives back the header keys up to the first missing one, each with its value as formatted (also lines 162-183) |
| DaoFiles.DumpReadBackOf | astwro/starlist/daofiles.py:95-118 | the same round trip for any first line that starts with a blank and `NL` and whose keys are different (also lines 162-183) |
| DaoFiles.DumpWithoutNL | astwro/starlist/daofiles.py:107-118 | a header without `NL` dumps a blank and an empty line, and `read_dao_header` does not recognise it: it stops at the line break where `N` was expected (also lines 173-179) |
| DaoTypes.IntOf | astwro/starlist/daofiles.py:239 | `int(s)` succeeds exactly when `s` without surrounding whitespace is an optional sign and ASCII digits grouped by single underscores; what it accepts holds only digits, underscores and a leading sign |
| DaoTypes.Strip | astwro/starlist/daofiles.py:239 | what `int()` strips leaves no whitespace at either end |
| DaoTypes.StripPadded | astwro/starlist/daofiles.py:239 | stripping removes exactly the whitespace around a text that has none at its ends |
| DaoTypes.IntOfSpacedGrouped | astwro/starlist/daofiles.py:239 | whitespace around a number and an underscore between its digits do not change what `int()` reads |
| DaoTypes.IntOfNatText | astwro/starlist/daofiles.py:239 | `int()` reads back the decimal text of a natural number |
| DaoTypes.GuessAgrees | astwro/starlist/daofiles.py:235-255 | `_guess_filetype` fails exactly when a non-empty header lacks `NL` or its `NL` is not an integer; a type it recognises has the header's `NL` and, except for the aperture file, as many columns as the table |
| DaoTypes.UnknownDiffers | astwro/starlist/fileformats.py:16-94 | the unknown type is none of the six types the guess can recognise |
| DaoTypes.GuessRecognizes | astwro/starlist/daofiles.py:241-254 | every recognisable type is guessed from a header with its `NL` and a table with its number of columns (any number for the aperture file) |
| DaoTypes.GuessOtherNL | astwro/starlist/daofiles.py:236-240 | an integer `NL` other than 1, 2 and 3 gives the unknown type |
| DaoTypes.ApertColumnNamed | astwro/starlist/fileformats.py:137-141 | the aperture columns are exactly `A2` to `AC` and `A2_err` to `AC_err` |
| DaoTypes.StaticShaped | astwro/starlist/fileformats.py:116-135 | every static entry names its own column, is not optional, and `_default` is the default type |
| DaoTypes.ApertShaped | astwro/starlist/fileformats.py:138-139 | every aperture entry is optional and keyed by its two-character aperture column |
| DaoTypes.ApertErrShaped | astwro/starlist/fileformats.py:140-141 | every aperture error entry is optional and keyed by its six-character column |
| DaoTypes.ColumnsShaped | astwro/starlist/fileformats.py:143 | every entry of `DAO.columns` is shaped, `_default` is the default type, each aperture column has its aperture's type |
| DaoTypes.ShapedLookup | astwro/starlist/daofiles.py:72-79 | over shaped entries, a column's type is optional exactly when it is an aperture column, and a numbered column falls through to `_default` |
| DaoTypes.ColTypeOptional | astwro/starlist/daofiles.py:72-79 | `_get_col_type` returns an optional type exactly for aperture and aperture error columns whatever the extension, an aperture column's own type, and `_default` for the unknown type's numbered columns |
| DaoTypes.ColTypeStatic | astwro/starlist/daofiles.py:72-79 | a column not named like an aperture column gets the type the static dictionary gives it, extension entry first |
| DaoTypes.StarList.constructor | astwro/starlist/daofiles.py:9-24 | a star list with the given columns and file type and no added column |
| DaoTypes.StarList.AddColumn | astwro/starlist/daofiles.py:21 | `starlist.loc[:, col] = default` appends the column, holding the value, and leaves the type alone |
| DaoTypes.Firsts | astwro/starlist/daofiles.py:21 | the columns of the added pairs, in order |
| DaoTypes.ConvertDaoType | astwro/starlist/daofiles.py:9-24 | `convert_dao_type` adds the missing, non-optional columns with a default in target order, returns whether it reached the end, keeps what it added before failing, and sets the new type only on success when asked |
| DaoTypes.WriteDaoType | astwro/starlist/daofiles.py:62-70 | `write_dao_file` with no type uses the list's own and raises without one; with a different type it converts (keeping the list's type) and raises when that fails; the same type is used as is |
| DaoTypes.ConversionOk | astwro/starlist/daofiles.py:14-19 | a conversion succeeds exactly when every target column is there, optional, or has a default |
| DaoTypes.ConversionAdds | astwro/starlist/daofiles.py:14-21 | every added column is a missing, non-optional target with a default, and gets that default |
| DaoTypes.ConversionDistinct | astwro/starlist/daofiles.py:14-21 | no column is added twice |
| DaoTypes.ConversionCovers | astwro/starlist/daofiles.py:14-24 | after a success every target column is in the list or optional |
| DaoTypes.ConversionSkip | astwro/starlist/daofiles.py:14-15 | targets already in the list are passed over |
| DaoTypes.ConversionAdd | astwro/starlist/daofiles.py:15-21 | a missing, non-optional target with a default is added with it, and the walk goes on with it present |
| DaoTypes.ColumnsAlsTypes | astwro/starlist/fileformats.py:119-125 | `DAO.columns` gives `.als` files the types that make a `.nei` conversion add four zero columns and a `.coo` one fail |
| DaoTypes.NeiToAlsIn | astwro/starlist/daofiles.py:9-24 | a `.nei` list converts to `.als` by adding `mag_err`, `iter`, `chi` and `sharp`, each zero; a `.coo` list cannot, for `mag` has no default there |
| DaoTypes.NeiToAls | astwro/starlist/daofiles.py:9-24 | the same two conversions with `DAO.columns` itself |
| FileFormats.ApertName | astwro/starlist/fileformats.py:29 | `'A{:X}'.format(n)` is `A` and one character |
| FileFormats.ApertErrName | astwro/starlist/fileformats.py:35 | `'A{:X}_err'.format(n)` is `A`, one character and `_err` |
| FileFormats.ApertCols | astwro/starlist/fileformats.py:29 | eleven aperture columns, the k-th for aperture k + 2 |
| FileFormats.ApertErrCols | astwro/starlist/fileformats.py:35 | eleven aperture error columns, the k-th for aperture k + 2 |
| FileFormats.UnknownCols | astwro/starlist/fileformats.py:17 | `'id'` then the numbers 1 to 99 |
| FileFormats.DictOf | astwro/starlist/fileformats.py:138-143 | `dict(pairs)` has exactly the keys of the pairs |
| FileFormats.DictOfLookup | astwro/starlist/fileformats.py:138-143 | when no key repeats, each key maps to its own pair's value |
| FileFormats.ApertPairs | astwro/starlist/fileformats.py:138-139 | the pairs for apertures 2 to 12, each with its aperture type |
| FileFormats.ApertErrPairs | astwro/starlist/fileformats.py:140-141 | the pairs for the aperture errors 2 to 12 |
| FileFormats.FileTypesKeyed | astwro/starlist/fileformats.py:97-107 | `file_types` knows nine extensions and each selects the type with that extension |
| FileFormats.UnregisteredTypes | astwro/starlist/fileformats.py:16-21 | the sky and unknown types are chosen by no extension (also lines 83-107) |
| FileFormats.ReadColsWithin | astwro/starlist/fileformats.py:53-82 | `read_cols`, where set, is at most the number of columns (5, 2 and 3 for `.nei`, `.err`, `.xy`) |
| FileFormats.ApertNamesSpelled | astwro/starlist/fileformats.py:29 | the aperture columns are spelled with an upper-case hexadecimal digit, `A2` to `AC` (also lines 35) |
| FileFormats.ApertNameInjective | astwro/starlist/fileformats.py:29 | different apertures have differently named columns |
| FileFormats.UnknownLayout | astwro/starlist/fileformats.py:16-21 | the unknown type has one hundred columns, `id` then 1 to 99 |
| FileFormats.ApFileLayout | astwro/starlist/fileformats.py:28-46 | the aperture file is the odd row's fifteen columns then the even row's fifteen, and no column occurs twice |
| FileFormats.ApertPairsDistinct | astwro/starlist/fileformats.py:138-141 | no aperture or aperture error column is listed twice |
| FileFormats.ApertColumnsLookup | astwro/starlist/fileformats.py:138-139 | `_apert_columns` holds exactly `A2` to `AC`, each with its aperture type |
| FileFormats.ApertErrColumnsLookup | astwro/starlist/fileformats.py:140-141 | `_ap_err_columns` holds exactly `A2_err` to `AC_err`, each with its type |
| FileFormats.ColumnsChained | astwro/starlist/fileformats.py:143 | the three dictionaries share no key, so chaining them loses no entry, and a type is optional exactly when it comes from the aperture dictionaries |
| FileFormats.Chained | astwro/starlist/fileformats.py:143 | chaining dictionaries told apart by key shape keeps every entry |
| CoordTools.PrepareLabels | astwro/coord/coord_tools.py:53-58 | no or empty labels give nothing; a list of sets is kept as it is; a list of single labels becomes one set per label, in order |
| CoordTools.PrepareIdempotent | astwro/coord/coord_tools.py:53-58 | preparing prepared labels changes nothing |
| CoordTools.Below | astwro/coord/coord_tools.py:139 | the objects are exactly the numbers below their count |
| CoordTools.Range | astwro/coord/coord_tools.py:108 | `range(n)` lists 0 to n-1 in order |
| CoordTools.RangeVisits | astwro/coord/coord_tools.py:108 | `range(len(index))` visits every object |
| CoordTools.VisitedAll | astwro/coord/coord_tools.py:109-139 | after the loop has assigned every object it visited, and it visits all of them, every object is assigned (the `assert` at the end holds) |
| CoordTools.ConnectedStep | astwro/coord/coord_tools.py:117-119 | a step to a neighbour closer than `radius` stays in the linked component |
| CoordTools.Listed | astwro/coord/coord_tools.py:141-143 | the dictionary of assignments listed in object order |
| CoordTools.GroupedPartition | astwro/coord/coord_tools.py:96-98 | the groups returned are pairwise disjoint and together hold exactly the objects (also lines 141-143) |
| CoordTools.Walk | astwro/coord/coord_tools.py:110-127 | the inner `while` gathers unassigned objects from `start` with their labels, stops at an assigned object or one already passed, with unique labels only steps to a neighbour whose (group's) labels are apart, and without them stays in the linked component; it fails only with unique labels and fewer labels than objects |
| CoordTools.JoinPartition | astwro/coord/coord_tools.py:128-138 | joining keeps each assigned object in the group it names, assigns the start and unassigns nothing |
| CoordTools.JoinHeld | astwro/coord/coord_tools.py:132 | joining keeps the labels of every member in its group's labels (also lines 136) |
| CoordTools.JoinApart | astwro/coord/coord_tools.py:120-132 | with unique labels, joining keeps the members of every group without a shared label |
| CoordTools.JoinLinked | astwro/coord/coord_tools.py:117-119 | without unique labels, joining keeps every object closer than `radius` in its neighbour's group (also lines 128-138) |
| CoordTools.ConnectedVia | astwro/coord/coord_tools.py:128-131 | objects in one component with a third are in one component |
| CoordTools.JoinSeparated | astwro/coord/coord_tools.py:128-138 | without unique labels, joining keeps the members of each group in one linked component |
| CoordTools.JoinKeeps | astwro/coord/coord_tools.py:128-138 | an iteration's join keeps the loop invariant, assigns the start and unassigns nothing |
| CoordTools.KeptGrouped | astwro/coord/coord_tools.py:139-143 | once all are assigned, `n in groups[assignation[n]]` and nothing else is in them, group labels hold members' labels, and either members' labels are apart (unique) or groups are exactly the linked components |
| CoordTools.Visit | astwro/coord/coord_tools.py:110-138 | one iteration of the `for` loop keeps the invariant, assigns the start and unassigns nothing, or fails for want of labels |
| CoordTools.VisitAll | astwro/coord/coord_tools.py:109-139 | the `for` loop over an order visiting every object ends with every object assigned and the invariant kept |
| CoordTools.FailurePromised | astwro/coord/coord_tools.py:115 | running out of labels with unique labels is the one failure `grouping` has (also lines 125) |
| CoordTools.KeptPromised | astwro/coord/coord_tools.py:139-143 | the loop's final state is what `grouping` returns |
| CoordTools.Grouping | astwro/coord/coord_tools.py:61-143 | `grouping` returns groups partitioning the objects with `n in groups[assignation[n]]`, group labels holding those of their members, and either no shared label inside a group (unique labels) or the groups exactly the linked components (each object closer than `radius` with its neighbour, and no group spanning two components); it fails only with unique labels and too few labels |
| CoordTools.BelowSize | astwro/coord/coord_tools.py:139 | there are `n` objects below `n` |
| CoordTools.ClosedApart | astwro/coord/coord_tools.py:117-119 | a link-closed set holding one object and not another puts them in different components |
| CoordTools.LabelsSplit | astwro/coord/coord_tools.py:85-89 | with unique labels, two objects sharing a label are assigned different groups |
| CoordTools.FixtureComponent | astwro/coord/tests/test_coordmatch.py:56-61 | the fixture's linked components at radius 2.0 are {0}, {1..5}, {6, 7}, {8..11} and {12} |
| CoordTools.FixtureLinked | astwro/coord/tests/test_coordmatch.py:56-61 | linked, every object of the fixture shares the group of 0, 1, 6, 8 or 12 |
| CoordTools.FixtureApart | astwro/coord/tests/test_coordmatch.py:56-61 | objects of different fixture components are in five different groups |
| CoordTools.GroupsNamed | astwro/coord/coord_tools.py:141-143 | a result has as many groups as there are distinct assigned group numbers |
| CoordTools.GroupingFixture | astwro/coord/tests/test_coordmatch.py:63-67 | `test_grouping`: without labels, at radius 2.0 the fixture gives exactly 5 groups |
| CoordTools.FixtureOnes | astwro/coord/tests/test_coordmatch.py:56-61 | the six objects labelled 1 land in six different groups (also lines 70-74) |
| CoordTools.GroupingFixtureUnique | astwro/coord/tests/test_coordmatch.py:70-74 | `test_grouping_uniq`: with the uniqueness labels there are more than 5 groups |
| CoordMatching.Matched | astwro/coord/CoordMatch.py:54-56 | `sepAB < r_match` holds exactly at the objects of A closer than the radius |
| CoordMatching.Not | astwro/coord/CoordMatch.py:64-70 | `~mask` flips every element |
| CoordMatching.WhereFrom | astwro/coord/CoordMatch.py:73-87 | (helper of `Where`) the positions from a start where the mask holds, increasing and all of them |
| CoordMatching.Where | astwro/coord/CoordMatch.py:73-87 | `np.arange(n)[m]` lists exactly the positions where the mask holds, increasing |
| CoordMatching.Pick | astwro/coord/CoordMatch.py:89-91 | `xs[m]` is the elements at those positions, in order |
| CoordMatching.MaskAt | astwro/coord/CoordMatch.py:58-62 | `r[idx] = True` on zeros holds exactly at the listed indices |
| CoordMatching.Insert | astwro/coord/CoordMatch.py:81-83 | (helper of `Unique`) putting a value into an increasing list keeps it increasing and adds just that value |
| CoordMatching.Unique | astwro/coord/CoordMatch.py:81-83 | `np.unique` gives the distinct elements, increasing |
| CoordMatching.IBAInB | astwro/coord/CoordMatch.py:81-91 | `iBA` is increasing, names objects of B, and holds exactly the objects nearest to a matched object of A |
| CoordMatching.ASplit | astwro/coord/CoordMatch.py:54-87 | `iAB` and `iAonly` are increasing and split the objects of A by whether they are closer than the radius |
| CoordMatching.BSplit | astwro/coord/CoordMatch.py:58-79 | `mBA` holds exactly at `iBA`, and `iBonly` lists, increasing, the other objects of B |
| CoordMatching.FourAgainstFive | astwro/coord/tests/test_coordmatch.py:41-46 | `test_match`: `iAonly == [1]`, `iAB == [0, 2, 3]`, `iBonly == [0, 2, 4]`, `iBA == [1, 3]` for the test's separations |
| CoordMatching.CoordMatch.constructor | astwro/coord/CoordMatch.py:11-29 | the separation radius defaults to the match radius, and nothing is cached |
| CoordMatching.CoordMatch.CalcDiff | astwro/coord/CoordMatch.py:31-32 | `_calc_diff` caches both results of the search |
| CoordMatching.CoordMatch.SepAB | astwro/coord/CoordMatch.py:34-38 | `sepAB` returns the separations, searching only when none is cached and leaving a cache alone |
| CoordMatching.CoordMatch.MapAB | astwro/coord/CoordMatch.py:40-44 | `mapAB` returns the neighbours, searching only when none is cached |
| CoordMatching.CoordMatch.MAB | astwro/coord/CoordMatch.py:54-56 | `mAB` is the matched mask |
| CoordMatching.CoordMatch.MAonly | astwro/coord/CoordMatch.py:64-66 | `mAonly` is its negation |
| CoordMatching.CoordMatch.IndexAB | astwro/coord/CoordMatch.py:85-87 | `iAB` is the matched objects of A (see `ASplit`) |
| CoordMatching.CoordMatch.IndexAonly | astwro/coord/CoordMatch.py:73-75 | `iAonly` is the unmatched objects of A |
| CoordMatching.CoordMatch.MappedIndexBA | astwro/coord/CoordMatch.py:89-91 | `mappediBA` is the neighbours of the matched objects |
| CoordMatching.CoordMatch.IndexBA | astwro/coord/CoordMatch.py:81-83 | `iBA` is their distinct neighbours (see `IBAInB`) |
| CoordMatching.CoordMatch.MBAMask | astwro/coord/CoordMatch.py:58-62 | `mBA` is the mask of `iBA` over B |
| CoordMatching.CoordMatch.MBonly | astwro/coord/CoordMatch.py:68-70 | `mBonly` is its negation |
| CoordMatching.CoordMatch.IndexBonly | astwro/coord/CoordMatch.py:77-79 | `iBonly` is the objects of B nobody matched (see `BSplit`) |
| GrepFitsHdr.FileList | astwro/tools/grepfitshdr.py:35-36 | a single `str` name becomes a list of one; a list is kept |
| GrepFitsHdr.Scanned | astwro/tools/grepfitshdr.py:18-25 | `headers` yields at most the given names, each an existing file |
| GrepFitsHdr.ScannedMembers | astwro/tools/grepfitshdr.py:18-25 | exactly the given names that are existing files are scanned |
| GrepFitsHdr.ScannedSnoc | astwro/tools/grepfitshdr.py:19-25 | one more name adds itself, in order, when it is an existing file |
| GrepFitsHdr.Hits | astwro/tools/grepfitshdr.py:42-47 | the counted lines are among the header lines |
| GrepFitsHdr.HitsMembers | astwro/tools/grepfitshdr.py:43-47 | a line is counted exactly when the pattern finds it, or with `-v` exactly when it does not |
| GrepFitsHdr.HitsSnoc | astwro/tools/grepfitshdr.py:42-47 | one more header line adds itself when it counts |
| GrepFitsHdr.HitsNone | astwro/tools/grepfitshdr.py:42-47 | no line is counted exactly when no line matches |
| GrepFitsHdr.Shown | astwro/tools/grepfitshdr.py:27-31 | `printmatch` prints the line and a line break, after `filename: ` with `-H` |
| GrepFitsHdr.PrintedSnoc | astwro/tools/grepfitshdr.py:42-48 | each counted line adds its printed line, in order |
| GrepFitsHdr.ListedSnoc | astwro/tools/grepfitshdr.py:52-53 | each listed name is printed on its own line, in order |
| GrepFitsHdr.GrepSnoc | astwro/tools/grepfitshdr.py:39-53 | each scanned file adds its count and its report to the totals, in order |
| GrepFitsHdr.Matching | astwro/tools/grepfitshdr.py:39-53 | the files with a counted line are among the scanned files |
| GrepFitsHdr.MatchingMembers | astwro/tools/grepfitshdr.py:39-53 | a file matches exactly when one of its header lines counts |
| GrepFitsHdr.NewlinesAppend | astwro/tools/grepfitshdr.py:31 | the lines printed by two prints add up |
| GrepFitsHdr.ShownLine | astwro/tools/grepfitshdr.py:27-31 | a printed match is one output line |
| GrepFitsHdr.PrintedLines | astwro/tools/grepfitshdr.py:42-48 | each counted line is printed as one output line |
| GrepFitsHdr.CountIsPrintedLines | astwro/tools/grepfitshdr.py:34-54 | without `-l` the returned count is the number of lines printed |
| GrepFitsHdr.FileOnlyLists | astwro/tools/grepfitshdr.py:49-53 | with `-l` as written, every scanned file is listed, matched or not, and the count is the number of files with a counted line |
| GrepFitsHdr.FileOnlyListsMatches | astwro/tools/grepfitshdr.py:49-53 | with `-l` as its help text describes it, exactly the files with a counted line are listed, in order (also lines 78) |
| GrepFitsHdr.SameWithoutFileOnly | astwro/tools/grepfitshdr.py:52-53 | without `-l` both readings print the same |
| GrepFitsHdr.InvertSplits | astwro/tools/grepfitshdr.py:44-45 | with `-v` the counted lines are exactly the others, and the two counts add up to the number of lines |
| GrepFitsHdr.CountZero | astwro/tools/grepfitshdr.py:34-54 | the count is zero exactly when no scanned file has a counted line |
| GrepFitsHdr.ExitCodeZero | astwro/tools/grepfitshdr.py:65-67 | the exit code is 0 exactly when some existing file has a counted header line, and 1 otherwise (also lines 95-99) |
| GrepFitsHdr.ListsUnmatchedFile | astwro/tools/grepfitshdr.py:52-53 | as written, `-l` prints the name of a file with no counted line and counts nothing for it; the corrected reading prints nothing |
| GrepFitsHdr.Output.constructor | astwro/tools/grepfitshdr.py:34 | the output starts empty |
| GrepFitsHdr.Output.Write | astwro/tools/grepfitshdr.py:30-31 | `print(..., file=output)` appends its text to the output (also lines 53) |
| GrepFitsHdr.PrintMatch | astwro/tools/grepfitshdr.py:27-31 | `printmatch` appends the shown line, or nothing with `fileonly` |
| GrepFitsHdr.GrepFiles | astwro/tools/grepfitshdr.py:34-54 | `grep` returns the number of counted lines over the existing files (at most one per file with `-l`) and appends exactly their report to the output |
| GrepFitsHdr.ScanFile | astwro/tools/grepfitshdr.py:40-53 | the body of `grep`'s loop as written: counts the file's counted lines (at most one with `-l`) and prints them, or with `-l` the file name whether a line counted or not |
| GrepFitsHdr.ScanFileMatchesOnly | astwro/tools/grepfitshdr.py:40-53 | the corrected loop body: with `-l` the file name only when a line counted (also lines 78) |
| GrepFitsHdr.ScanHeader | astwro/tools/grepfitshdr.py:42-50 | the inner loop prints the counted lines (none with `-l`) and stops at the first with `-l` |
| FileSystem.DirPrefix | astwro/utils/TmpDir.py:58-59 | a directory name followed by exactly one `/` |
| FileSystem.Resolve | astwro/pydaophot/Runner.py:184 | following a link chain ends at a path that is not a link |
| FileSystem.RemoveIn | astwro/pydaophot/Runner.py:181 | `os.remove` succeeds exactly on an existing file or link, and removes only it (also 213; astwro/utils/CycleFile.py:73) |
| FileSystem.SymlinkIn | astwro/pydaophot/Runner.py:184 | `os.symlink` succeeds exactly when nothing, not even a dangling link, is at the path and its parent is a directory; it adds just the link (also astwro/utils/CycleFile.py:74) |
| FileSystem.MakeDirIn | astwro/utils/TmpDir.py:28 | making a directory succeeds exactly when the path is free and its parent is a directory |
| FileSystem.ReadIn | astwro/pydaophot/Runner.py:357 | reading succeeds only on something that exists, following links; otherwise `OSError` |
| FileSystem.WriteIn | astwro/utils/CycleFile.py:55 | `open(p, 'w')` writes through a link to the file it resolves to |
| FileSystem.CopyIn | astwro/pydaophot/Runner.py:357 | `shutil.copy` fails only with `OSError` |
| FileSystem.RmTreeIn | astwro/utils/TmpDir.py:58 | `shutil.rmtree` succeeds exactly on a real directory (also lines 68) |
| FileSystem.RebaseInjective | astwro/utils/TmpDir.py:59 | different entries below the source are copied to different names |
| FileSystem.CopiesBelow | astwro/utils/TmpDir.py:59 | every entry below the source appears below the destination with its content, and nothing else is made |
| FileSystem.CopyTreeIn | astwro/utils/TmpDir.py:59 | `shutil.copytree` succeeds exactly when the source is a directory and the destination is free in an existing directory |
| FileSystem.RmTreeRemovesBelow | astwro/utils/TmpDir.py:58 | `rmtree` removes exactly the directory and what lies below it, leaving the rest as it was (also lines 68) |
| FileSystem.CopyTreeCopies | astwro/utils/TmpDir.py:59 | `copytree(..., symlinks=True)` creates the destination, copies every entry below the source (links as links), and leaves every entry outside the destination as it was |
| FileSystem.FileSystem.constructor | astwro/utils/TmpDir.py:19-32 | the filesystem holds the given tree and environment |
| FileSystem.FileSystem.Commit | astwro/pydaophot/Runner.py:180-184 | one call's outcome is committed: the new tree on success, the old tree on failure |
| FileSystem.FileSystem.Remove | astwro/pydaophot/Runner.py:181 | `os.remove` on the process's filesystem (also lines 213) |
| FileSystem.FileSystem.Symlink | astwro/pydaophot/Runner.py:184 | `os.symlink` on the process's filesystem (also astwro/utils/CycleFile.py:74) |
| FileSystem.FileSystem.Copy | astwro/pydaophot/Runner.py:357 | `shutil.copy` on the process's filesystem |
| FileSystem.FileSystem.Create | astwro/utils/CycleFile.py:55 | `open(p, 'w')` on the process's filesystem |
| FileSystem.FileSystem.RmTree | astwro/utils/TmpDir.py:58 | `shutil.rmtree` on the process's filesystem (also lines 68) |
| FileSystem.FileSystem.CopyTree | astwro/utils/TmpDir.py:59 | `shutil.copytree` on the process's filesystem |
| FileSystem.FileSystem.MkdTemp | astwro/utils/TmpDir.py:28 | `mkdtemp(prefix=..., dir=...)` makes a new directory named by the prefix and a random part, in the base or the system temp directory, and returns its path |
| Paths.SplitSlash | astwro/pydaophot/Runner.py:223 | `split('/')` gives at least one piece, none holding a `/` |
| Paths.SplitJoinSlash | astwro/pydaophot/Runner.py:223 | splitting on `/` and joining back gives the path |
| Paths.JoinSplitSlash | astwro/pydaophot/Runner.py:223 | joining slash-free pieces and splitting gives them back |
| Paths.Join | astwro/pydaophot/Runner.py:179 | `os.path.join(a, b)` is `b` when `b` is absolute, and otherwise starts with `a` and ends with `b` (also 231; astwro/utils/CycleFile.py:53) |
| Paths.TailStart | astwro/pydaophot/Runner.py:178 | where the base name starts: after the last `/`, or at the start (also lines 228) |
| Paths.TailHasNoSlash | astwro/pydaophot/Runner.py:178 | no `/` follows the last one (also lines 228) |
| Paths.BasenameIsWholePath | astwro/pydaophot/Runner.py:228 | `basename(p) == p` exactly when `p` holds no `/`, and a base name never holds one (also lines 265) |
| Paths.StripTrailingSlashes | astwro/pydaophot/Runner.py:263 | removing trailing slashes leaves a prefix |
| Paths.NormPath | astwro/pydaophot/Runner.py:223 | `normpath` never returns an empty path |
| Paths.AbsPathIsAbs | astwro/pydaophot/Runner.py:223 | with an absolute working directory, `abspath` is absolute |
| Paths.NormCompsOfNormal | astwro/pydaophot/Runner.py:223 | components that are not empty, `.` or `..` pass `normpath` unchanged |
| Paths.NormCompsRootedNormal | astwro/pydaophot/Runner.py:223 | under a root, `normpath` keeps only such components |
| Paths.NormPathIsAbs | astwro/pydaophot/Runner.py:223 | `normpath` of an absolute path is absolute |
| Paths.NormPathIdempotent | astwro/pydaophot/Runner.py:223 | `normpath` of an absolute path is its own `normpath` (also lines 263) |
| Paths.NormPathRoot | astwro/pydaophot/Runner.py:223 | `/` and `//` are their own `normpath` |
| Paths.NormPathRooted | astwro/pydaophot/Runner.py:223 | a path of one or two leading slashes and normal components is its own `normpath` |
| Paths.NormPathOfNormal | astwro/pydaophot/Runner.py:223 | a rooted path of normal components is its own `normpath` (also lines 263) |
| Paths.DirnameOfChild | astwro/pydaophot/Runner.py:263 | `dirname` of a name joined below a directory is that directory |
| Paths.ExpandPathIsAbs | astwro/pydaophot/Runner.py:217-224 | `expand_path` gives `''` for `None`, and otherwise (with an absolute working directory) an absolute, normalised path |
| Paths.ExpandUser | astwro/pydaophot/Runner.py:222 | `expanduser` leaves a path that does not start with `~` unchanged |
| Paths.ExpandUserNamed | astwro/pydaophot/Runner.py:222 | `~name/...` is the home of user `name` without trailing slashes, then the rest (`/` when empty), and unchanged when the password database has no such user |

## Left out

- `Runners.Allstar.CopyBack`: `ext_output_files` is a Python `set` (`astwro/pydaophot/Runner.py:73`, `:356`), so the order of the copies is arbitrary. The model copies in insertion order, and so it fixes which copy fails first when several would fail.
- `AllstarText`: option values are exact decimals (`OptDict`). `_pre_run` calls `float(v)` on each value (`astwro/pydaophot/Allstar.py:85`), so a string value such as `'6.0'` is accepted and a non-numeric string raises `ValueError`. Neither case is modelled.
- `'%.2f'` (`astwro/pydaophot/Allstar.py:85`) and the header formats of `dump_dao_hdr` (`astwro/starlist/daofiles.py:104-113`) are a formatter parameter, not a model of Python's float formatting.
- Regular expressions are hand-written scanners. In them `\s`, `\d` and `\w` are the ASCII classes, not Python's Unicode classes. Case-insensitive matching is not modelled. (`str.split()` uses the full whitespace set.)
- DaoTypes.IntOf: the digits `int()` accepts are the ASCII ones; the other Unicode decimal digits it also reads are not modelled.
- FileSystem.Resolve: follows symbolic links only at the last component of a path. A path through a linked directory (`lnk/f` with `lnk` a link to `d`) names its own key, not `d/f` as the operating system resolves it. The paths the modelled code builds have real directories above them.
- Runners.Allstar.Communicate: after a `UnicodeDecodeError` with nothing stored, the runner stays running, and a later wait launches the program again. CPython's second `communicate()` would give back the same bytes instead, so it would fail the same way again.
- `GrepFitsHdr`: opening and verifying a FITS file (`pyfits.open`, `verify('silentfix')`, `repr(h)`) is left out. A header is given as its lines, and the exceptions `pyfits` raises on a bad file are not modelled.
- `FileSystem.FileSystem.MkdTemp`: `tempfile.mkdtemp` retries with another random name when its first choice exists. The model takes the random name as a parameter, and a name already taken fails with `OSError`.
- `CoordTools.PrepareLabels`: `_prepare_labels` looks only at the first element to decide between a list of sets and a list of single labels. The `Labels` datatype cannot express a mixed list.
- `__del__`, `__enter__` and `__exit__` of `TmpDir` and `CycleFile`, and the exceptions they swallow, are left out. The garbage collector calls them at times the model does not know. `TempDirs.TmpDir.RmDir` and `CycleFiles.CycleFile.Close` model the work they do.
- Logging calls are left out. They do not change any state the model has.
- Python 2 paths are left out: the `StringIO` import and writing the script to `stdin` when the first `communicate` times out (`astwro/pydaophot/Runner.py:307-311`).
- Process spawning (`Popen`, pipes, the 0.01 s timeout) is the oracle `exec` and the flag `capturedNow`.
- `Runners.Allstar.Communicate`: `ExitError` is raised only when the return code is below zero and `raise_on_nonzero_exitcode` is set (`astwro/pydaophot/Runner.py:351`). The model follows this code, although the option's name suggests any non-zero code.
- `DaoTypes.WriteDaoType`: the message of the conversion failure omits the formatted column lists of `astwro/starlist/daofiles.py:69`, and the plain `Exception` of lines 64 and 69 is the error `RuntimeError` with the message.
- `Runners.Allstar.Run`: an explicit `run()` on a finished runner starts the program again, as the source does. Nothing about how two runs' files interact is proved.
- Numerical code (photometry, `mean_coord`, `central`, `match_catalogues`), plotting, and pandas- and astropy-backed table I/O are left out. This covers `_parse_table`, `_write_table`, `_write_file`, `read_dao_file`, `write_dao_header` and the `StarList` data frame. `DaoTypes.StarList` keeps only the columns, the added columns and the file type.
- `Runner.__deepcopy__`, the `mode` setter, `copy_to_runner_dir`, `copy_from_runner_dir`, `link_from_runner_dir`, `file_from_runner_dir` and `exists_in_runner_dir` are outside the core modelled here. So are the DAOPHOT runner, the other tool wrappers, and the configuration lookups.
- `DpOp_FInd.pixels` (`astwro/pydaophot/OutputProviders.py:206`) is outside the core modelled here. It calls `self.data()` on a property.
- `CoordMatching.CoordMatch`: `SkyCoord` and `match_to_catalog_sky` are left out. The nearest neighbour and separation of each object of A are inputs, and the radii are plain reals in arc seconds.

## Findings

| source | as written | input that shows it | evidently intended | confidence | as-written member | corrected member |
|---|---|---|---|---|---|---|
| astwro/pydaophot/Allstar.py:150 | `AsOp_result(profile_photometry_file=..., subtracted_image_file=...)`, while `OutputProvider.__init__` takes only `prev_in_chain` (`OutputProviders.py:36`) | any call `ALlstar()`: it raises `TypeError` after staging the files, no step is added, and a later `run()` raises "Add ALlstar command before run." | `AsOp_result()` is created and the ALLSTAR step is added | not executed | Runners.Allstar.AllstarCommand | Runners.Allstar.AllstarCommandCorrected |
| astwro/pydaophot/Runner.py:155 | `tmpdir(use_existing=dir)`, while `tmpdir` takes `use_exiting` (`astwro/utils/__init__.py:5`) | `Runner(dir='/some/path')` raises `TypeError` | the path is used as an existing runner directory | not executed | RunnerFiles.PrepareDirAsWrittenRejectsPaths | RunnerFiles.PrepareDir |
| astwro/utils/CycleFile.py:74 | `os.symlink(self.filepath, symlpath)` with `filepath` as joined from a relative `path` | `CycleFile(path='d')`, with `d` relative to the working directory: the link in `d` gets the text `d/<file>`, which from the link's own directory names `d/d/<file>`; the next `_link` finds `os.path.exists` false for the dangling link and does not remove it, so `os.symlink` raises and the third `next_file` fails | the link points to the newest file | not executed | CycleFiles.RelativeLinkDangles | CycleFiles.RelativeLinkCorrected |
| astwro/tools/grepfitshdr.py:52-53 | `if fileonly: print(f)` for every scanned file | `grep -l X f.fits` where no header line of `f.fits` matches: `f.fits` is printed | as the help text at line 78 says, only files with a match are printed | not executed | GrepFitsHdr.ListsUnmatchedFile | GrepFitsHdr.FileOnlyListsMatches |
| astwro/pydaophot/Runner.py:248 | `hashlib.md5(str(signature))` | under Python 3, any non-local path passed to `_prepare_io_file` raises `TypeError` (md5 needs bytes) | the digest of the encoded signature | not executed | RunnerFiles.RunnerDirFileNameAsWrittenFails | RunnerFiles.RunnerDirFileName |
