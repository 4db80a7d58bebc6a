/** `regress` of conf_reg/utils.py and its older copy in
    confound_regression.py: locate the scan's files, resolve the confounds,
    smooth, optionally run ICA-AROMA, clean, optionally scrub, and save.
    The numerical routines are parameters (`Numerics`); what the pipeline
    hands them, in which order, and what it writes is the model. */
module Regress {
  import opened Outcomes
  import opened PyStr
  import opened Data
  import opened ScanFiles
  import opened Confounds
  import opened Scrubbing

  /** The keyword arguments of `nilearn.image.clean_img`. `confounds` holds
      the resolved columns (the transposition to a time-by-column array is
      a layout change not modelled). */
  datatype CleanArgs = CleanArgs(detrend: bool, standardize: bool, lowPass: Option<real>, highPass: Option<real>,
                                 confounds: Option<seq<Option<Column>>>, tr: real, maskImg: string)

  /** The arguments of one ICA-AROMA run: `-i -o -mc -m -c -tr` and `-dim`
      when it is passed. */
  datatype AromaCall = AromaCall(inFile: string, outDir: string, mcFile: string, brainMask: string,
                                 csfMask: string, tr: real, dim: Option<int>)

  /** The numerical routines: `smooth_img`, what `clean_img` finds at the
      path of ICA-AROMA's non-aggressively denoised output after the run
      (None when the run left no file there), and `clean_img`, None when it
      rejects its arguments with ValueError (for instance a confound array
      whose length differs from the image's frame count). */
  datatype Numerics = Numerics(smooth: (Image, real) -> Image, aroma: AromaCall -> Option<Image>,
                               clean: (Image, CleanArgs) -> Option<Image>)

  /** The calls to outside code and the files written, in order. */
  datatype Step =
    | Smooth(boldFile: string, fwhm: real)
    | SaveImage(path: string, img: Image)
    | WritePar(par: ParFile)
    | RunAroma(call: AromaCall)
    | Clean(args: CleanArgs)
    | ScrubFrames(fdFile: string, threshold: real)

  /** Everything one call did, and the path it returned or the exception it raised. */
  datatype Run = Run(steps: seq<Step>, result: Result<string>)

  /** The file lists `regress` searches. */
  datatype FileLists = FileLists(bold: seq<string>, brainMask: seq<string>, confounds: seq<string>,
                                 csfMask: seq<string>, fd: seq<string>)

  /** The other parameters of `regress` (the older copy has no `aroma_dim`,
      `apply_scrubbing` or `scrubbing_threshold`, and ignores them here). */
  datatype Params = Params(confList: seq<string>, tr: real, lowPass: Option<real>, highPass: Option<real>,
                           smoothing: real, runAroma: bool, aromaDim: int, applyScrubbing: bool,
                           scrubbingThreshold: real, outDir: string)

  /** Which copy runs: conf_reg/utils.py, which also knows the scan's
      framewise-displacement file, or confound_regression.py. */
  datatype Version = Current(fdFile: string) | Legacy

  /** The four files both copies locate. */
  datatype Inputs = Inputs(bold: string, brainMask: string, confounds: string, csfMask: string)

  /** `cleaned_path` */
  function CleanedPath(outDir: string, scanInfo: string): string {
    outDir + "/" + scanInfo + "_cleaned.nii.gz"
  }

  /** The `confounds` argument: the columns when there are any, None otherwise. */
  function ConfoundsArg(columns: seq<Option<Column>>): (r: Option<seq<Option<Column>>>)
    ensures r.None? <==> columns == []
    ensures r.Some? ==> r.value == columns
  {
    if |columns| > 0 then Some(columns) else None
  }

  function DialectOf(fs: FileSystem, v: Version): Dialect {
    match v
    case Current(fdFile) => WithMeanFD(ReadCsv(fs, fdFile))
    case Legacy => WithoutMeanFD
  }

  function ParFor(fs: FileSystem, cwd: string, v: Version, confounds: string): Result<ParFile> {
    if v.Current? then Csv2Par(fs, cwd, confounds) else LegacyCsv2Par(fs, confounds)
  }

  /** The ICA-AROMA command line `exec_ICA_AROMA` builds: every path made
      absolute, `-dim` from the current copy only. */
  function AromaCallFor(cwd: string, scanInfo: string, v: Version, f: Inputs, p: Params, par: ParFile): AromaCall {
    var smoothPath := AbsPath(cwd, p.outDir + "/" + scanInfo + "_smoothed.nii.gz");
    AromaCall(AbsPath(cwd, smoothPath), AbsPath(cwd, p.outDir + "/" + scanInfo + "_aroma"),
              AbsPath(cwd, par.path), AbsPath(cwd, f.brainMask), AbsPath(cwd, f.csfMask),
              p.tr, if v.Current? then Some(p.aromaDim) else None)
  }

  /** The ICA-AROMA branch: save the smoothed image, write the `.par` file,
      run ICA-AROMA; gives the steps taken and the image to clean. The exit
      status of the run is ignored: a missing output file makes `clean_img`
      raise ValueError. */
  function AromaStage(fs: FileSystem, nx: Numerics, cwd: string, scanInfo: string, v: Version,
                      f: Inputs, p: Params, smoothed: Image): (seq<Step>, Result<Image>)
  {
    var smoothPath := AbsPath(cwd, p.outDir + "/" + scanInfo + "_smoothed.nii.gz");
    var saved := [SaveImage(smoothPath, smoothed)];
    var par := ParFor(fs, cwd, v, f.confounds);
    if par.Err? then (saved, Err(par.error))
    else
      var call := AromaCallFor(cwd, scanInfo, v, f, p, par.value);
      var out := nx.aroma(call);
      (saved + [WritePar(par.value), RunAroma(call)], if out.None? then Err(ValueError) else Ok(out.value))
  }

  /** The arguments `clean_img` receives. */
  function CleanArgsFor(f: Inputs, p: Params, columns: seq<Option<Column>>): CleanArgs {
    CleanArgs(true, true, p.lowPass, p.highPass, ConfoundsArg(columns), p.tr, f.brainMask)
  }

  /** Cleaning, the optional scrubbing and the final save, after `steps`. */
  function Finish(fs: FileSystem, nx: Numerics, scanInfo: string, v: Version, f: Inputs, p: Params,
                  columns: seq<Option<Column>>, input: Image, steps: seq<Step>): Run
  {
    var args := CleanArgsFor(f, p, columns);
    var cleaned := nx.clean(input, args);
    if cleaned.None? then Run(steps, Err(ValueError))
    else
      var steps := steps + [Clean(args)];
      if v.Current? && p.applyScrubbing then
        var scrubbed := Scrubbed(cleaned.value, ReadCsv(fs, v.fdFile), p.scrubbingThreshold);
        var steps := steps + [ScrubFrames(v.fdFile, p.scrubbingThreshold)];
        if scrubbed.Err? then Run(steps, Err(scrubbed.error))
        else Run(steps + [SaveImage(CleanedPath(p.outDir, scanInfo), scrubbed.value)], Ok(CleanedPath(p.outDir, scanInfo)))
      else Run(steps + [SaveImage(CleanedPath(p.outDir, scanInfo), cleaned.value)], Ok(CleanedPath(p.outDir, scanInfo)))
  }

  /** Everything after the files are located. */
  function RunFrom(fs: FileSystem, nx: Numerics, cwd: string, scanInfo: string, v: Version, f: Inputs, p: Params): Run {
    var table := ReadCsv(fs, f.confounds);
    if table.Err? then Run([], Err(table.error))
    else
      var resolved := Resolve(p.confList, table.value, DialectOf(fs, v));
      if resolved.Err? then Run([], Err(resolved.error))
      else
        var bold := LoadImage(fs, f.bold);
        if bold.Err? then Run([], Err(bold.error))
        else
          var smoothed := nx.smooth(bold.value, p.smoothing);
          var steps := [Smooth(f.bold, p.smoothing)];
          if p.runAroma then
            var (more, input) := AromaStage(fs, nx, cwd, scanInfo, v, f, p, smoothed);
            if input.Err? then Run(steps + more, Err(input.error))
            else Finish(fs, nx, scanInfo, v, f, p, resolved.value, input.value, steps + more)
          else Finish(fs, nx, scanInfo, v, f, p, resolved.value, smoothed, steps)
  }

  /** `regress` of conf_reg/utils.py, run in the working directory `cwd`. */
  function RegressSpec(fs: FileSystem, nx: Numerics, cwd: string, scanInfo: string, files: FileLists, p: Params): Run {
    var located := Locate(scanInfo, files.bold, files.brainMask, files.confounds, files.csfMask, files.fd);
    if located.Err? then Run([], Err(located.error))
    else
      var s := located.value;
      RunFrom(fs, nx, cwd, scanInfo, Current(s.fd), Inputs(s.bold, s.brainMask, s.confounds, s.csfMask), p)
  }

  /** `regress` of confound_regression.py (the `fd` list is not used). */
  function LegacyRegressSpec(fs: FileSystem, nx: Numerics, cwd: string, scanInfo: string, files: FileLists, p: Params): Run {
    var located := LocateLegacy(scanInfo, files.bold, files.brainMask, files.confounds, files.csfMask);
    if located.Err? then Run([], Err(located.error))
    else
      var s := located.value;
      RunFrom(fs, nx, cwd, scanInfo, Legacy, Inputs(s.bold, s.brainMask, s.confounds, s.csfMask), p)
  }

  /** The kinds of step, for stating their order. */
  datatype StepKind = SmoothKind | SaveKind | ParKind | AromaKind | CleanKind | ScrubKind

  function KindOf(s: Step): StepKind {
    match s
    case Smooth(_, _) => SmoothKind
    case SaveImage(_, _) => SaveKind
    case WritePar(_) => ParKind
    case RunAroma(_) => AromaKind
    case Clean(_) => CleanKind
    case ScrubFrames(_, _) => ScrubKind
  }

  function Kinds(steps: seq<Step>): (ks: seq<StepKind>)
    ensures |ks| == |steps| && forall k :: 0 <= k < |steps| ==> ks[k] == KindOf(steps[k])
  {
    seq(|steps|, k requires 0 <= k < |steps| => KindOf(steps[k]))
  }

  /** The order of a completed run: smooth, then (with AROMA) save the
      smoothed image, write the `.par` file and run AROMA, then clean, then
      (when asked, in the current copy) scrub, then save. */
  function ExpectedKinds(aroma: bool, scrub: bool): seq<StepKind> {
    [SmoothKind] + (if aroma then [SaveKind, ParKind, AromaKind] else []) + [CleanKind] +
    (if scrub then [ScrubKind] else []) + [SaveKind]
  }

  /** Index of the cleaning step in a completed run. */
  function CleanIndex(aroma: bool): nat {
    if aroma then 4 else 1
  }

  lemma FinishShape(fs: FileSystem, nx: Numerics, scanInfo: string, v: Version, f: Inputs, p: Params,
                    columns: seq<Option<Column>>, input: Image, steps: seq<Step>)
    ensures var r := Finish(fs, nx, scanInfo, v, f, p, columns, input, steps);
      var cleaned := nx.clean(input, CleanArgsFor(f, p, columns));
      |r.steps| >= |steps| && r.steps[..|steps|] == steps &&
      (cleaned.None? ==> r == Run(steps, Err(ValueError))) &&
      (cleaned.Some? ==> |r.steps| > |steps| && r.steps[|steps|] == Clean(CleanArgsFor(f, p, columns))) &&
      (r.result.Ok? ==>
        cleaned.Some? &&
        r.result.value == CleanedPath(p.outDir, scanInfo) &&
        Kinds(r.steps[|steps|..]) == [CleanKind] + (if v.Current? && p.applyScrubbing then [ScrubKind] else []) + [SaveKind] &&
        r.steps[|r.steps| - 1] == SaveImage(CleanedPath(p.outDir, scanInfo), FinalImage(fs, v, p, cleaned.value)))
  {
  }

  /** The image a completed run saves: the cleaned image, scrubbed when asked. */
  function FinalImage(fs: FileSystem, v: Version, p: Params, cleaned: Image): Image
  {
    if v.Current? && p.applyScrubbing then
      var scrubbed := Scrubbed(cleaned, ReadCsv(fs, v.fdFile), p.scrubbingThreshold);
      if scrubbed.Ok? then scrubbed.value else cleaned
    else cleaned
  }

  /** A completed run returns and saves `out_dir + '/' + scan_info + '_cleaned.nii.gz'`,
      and takes its steps in the fixed order. */
  lemma RunFromShape(fs: FileSystem, nx: Numerics, cwd: string, scanInfo: string, v: Version, f: Inputs, p: Params)
    ensures var r := RunFrom(fs, nx, cwd, scanInfo, v, f, p);
      r.result.Ok? ==>
        r.result.value == CleanedPath(p.outDir, scanInfo) &&
        Kinds(r.steps) == ExpectedKinds(p.runAroma, v.Current? && p.applyScrubbing) &&
        r.steps[|r.steps| - 1].SaveImage? && r.steps[|r.steps| - 1].path == CleanedPath(p.outDir, scanInfo)
  {
    var r := RunFrom(fs, nx, cwd, scanInfo, v, f, p);
    if r.result.Ok? {
      var (columns, input, before) := Prepared(fs, nx, cwd, scanInfo, v, f, p);
      PreparedContinues(fs, nx, cwd, scanInfo, v, f, p);
      PreparedKinds(fs, nx, cwd, scanInfo, v, f, p);
      FinishShape(fs, nx, scanInfo, v, f, p, columns, input, before);
      KindsSplit(r.steps, |before|);
      assert r.steps[..|before|] == before;
      ExpectedKindsSplit(p.runAroma, v.Current? && p.applyScrubbing);
    }
  }

  lemma ExpectedKindsSplit(aroma: bool, scrub: bool)
    ensures ExpectedKinds(aroma, scrub) ==
      ([SmoothKind] + (if aroma then [SaveKind, ParKind, AromaKind] else [])) +
      ([CleanKind] + (if scrub then [ScrubKind] else []) + [SaveKind])
  {
  }

  /** What a run has done when cleaning starts: the resolved columns, the
      image to clean and the steps so far (meaningful when it gets there). */
  function Prepared(fs: FileSystem, nx: Numerics, cwd: string, scanInfo: string, v: Version, f: Inputs, p: Params)
    : (seq<Option<Column>>, Image, seq<Step>)
  {
    var table := ReadCsv(fs, f.confounds);
    if table.Err? then ([], Image([], [], map[]), [])
    else
      var resolved := Resolve(p.confList, table.value, DialectOf(fs, v));
      var bold := LoadImage(fs, f.bold);
      if resolved.Err? || bold.Err? then ([], Image([], [], map[]), [])
      else
        var smoothed := nx.smooth(bold.value, p.smoothing);
        var steps := [Smooth(f.bold, p.smoothing)];
        if p.runAroma then
          var (more, input) := AromaStage(fs, nx, cwd, scanInfo, v, f, p, smoothed);
          if input.Err? then ([], Image([], [], map[]), [])
          else (resolved.value, input.value, steps + more)
        else (resolved.value, smoothed, steps)
  }

  /** A run that gets to cleaning continues with `Finish` from where
      `Prepared` leaves it, after a smoothing step and, with AROMA, the three
      AROMA steps. */
  lemma PreparedSpec(fs: FileSystem, nx: Numerics, cwd: string, scanInfo: string, v: Version, f: Inputs, p: Params)
    ensures var r := RunFrom(fs, nx, cwd, scanInfo, v, f, p);
      var (columns, input, before) := Prepared(fs, nx, cwd, scanInfo, v, f, p);
      r.result.Ok? ==>
        r == Finish(fs, nx, scanInfo, v, f, p, columns, input, before) &&
        Kinds(before) == [SmoothKind] + (if p.runAroma then [SaveKind, ParKind, AromaKind] else [])
  {
    PreparedContinues(fs, nx, cwd, scanInfo, v, f, p);
    PreparedKinds(fs, nx, cwd, scanInfo, v, f, p);
  }

  lemma PreparedContinues(fs: FileSystem, nx: Numerics, cwd: string, scanInfo: string, v: Version, f: Inputs, p: Params)
    ensures var r := RunFrom(fs, nx, cwd, scanInfo, v, f, p);
      var (columns, input, before) := Prepared(fs, nx, cwd, scanInfo, v, f, p);
      (r.result.Ok? ==> before != []) &&
      (before != [] ==> r == Finish(fs, nx, scanInfo, v, f, p, columns, input, before))
  {
  }

  /** A run that gets to cleaning but whose `clean_img` call is rejected
      raises ValueError after the steps before cleaning, saving nothing. */
  lemma RejectedCleanRaises(fs: FileSystem, nx: Numerics, cwd: string, scanInfo: string, v: Version, f: Inputs, p: Params)
    ensures var r := RunFrom(fs, nx, cwd, scanInfo, v, f, p);
      var (columns, input, before) := Prepared(fs, nx, cwd, scanInfo, v, f, p);
      before != [] && nx.clean(input, CleanArgsFor(f, p, columns)).None? ==>
        r == Run(before, Err(ValueError)) && Kinds(r.steps) == [SmoothKind] + (if p.runAroma then [SaveKind, ParKind, AromaKind] else [])
  {
    var (columns, input, before) := Prepared(fs, nx, cwd, scanInfo, v, f, p);
    PreparedContinues(fs, nx, cwd, scanInfo, v, f, p);
    PreparedKinds(fs, nx, cwd, scanInfo, v, f, p);
    FinishShape(fs, nx, scanInfo, v, f, p, columns, input, before);
  }

  lemma PreparedKinds(fs: FileSystem, nx: Numerics, cwd: string, scanInfo: string, v: Version, f: Inputs, p: Params)
    ensures var before := Prepared(fs, nx, cwd, scanInfo, v, f, p).2;
      before != [] ==> Kinds(before) == [SmoothKind] + (if p.runAroma then [SaveKind, ParKind, AromaKind] else [])
  {
    var table := ReadCsv(fs, f.confounds);
    if table.Ok? {
      var resolved := Resolve(p.confList, table.value, DialectOf(fs, v));
      var bold := LoadImage(fs, f.bold);
      if resolved.Ok? && bold.Ok? && p.runAroma {
        var smoothed := nx.smooth(bold.value, p.smoothing);
        var stage := AromaStage(fs, nx, cwd, scanInfo, v, f, p, smoothed);
        AromaStageKinds(fs, nx, cwd, scanInfo, v, f, p, smoothed);
        KindsAppend([Smooth(f.bold, p.smoothing)], stage.0);
      }
    }
  }

  /** A completed AROMA stage saves, writes the `.par` file and runs AROMA. */
  lemma AromaStageKinds(fs: FileSystem, nx: Numerics, cwd: string, scanInfo: string, v: Version,
                        f: Inputs, p: Params, smoothed: Image)
    ensures var (more, input) := AromaStage(fs, nx, cwd, scanInfo, v, f, p, smoothed);
      input.Ok? ==> Kinds(more) == [SaveKind, ParKind, AromaKind]
  {
  }

  lemma KindsAppend(a: seq<Step>, b: seq<Step>)
    ensures Kinds(a + b) == Kinds(a) + Kinds(b)
  {
  }

  lemma KindsSplit(steps: seq<Step>, k: nat)
    requires k <= |steps|
    ensures Kinds(steps) == Kinds(steps[..k]) + Kinds(steps[k..])
  {
  }

  /** `clean_img` runs with detrending and standardisation, the given filters
      and TR, the brain mask, and `confounds=None` exactly when no confound
      column was resolved; otherwise it gets the resolved columns in order. */
  lemma CleanStepArguments(fs: FileSystem, nx: Numerics, cwd: string, scanInfo: string, v: Version, f: Inputs, p: Params)
    requires RunFrom(fs, nx, cwd, scanInfo, v, f, p).result.Ok?
    ensures ReadCsv(fs, f.confounds).Ok? && Resolve(p.confList, ReadCsv(fs, f.confounds).value, DialectOf(fs, v)).Ok?
    ensures var r := RunFrom(fs, nx, cwd, scanInfo, v, f, p);
      var columns := Resolve(p.confList, ReadCsv(fs, f.confounds).value, DialectOf(fs, v)).value;
      CleanIndex(p.runAroma) < |r.steps| && r.steps[CleanIndex(p.runAroma)].Clean? &&
      var args := r.steps[CleanIndex(p.runAroma)].args;
      args.detrend && args.standardize && args.lowPass == p.lowPass && args.highPass == p.highPass &&
      args.tr == p.tr && args.maskImg == f.brainMask &&
      (args.confounds.None? <==> columns == []) &&
      (args.confounds.Some? ==> args.confounds.value == columns)
  {
    var (columns, input, before) := Prepared(fs, nx, cwd, scanInfo, v, f, p);
    PreparedSpec(fs, nx, cwd, scanInfo, v, f, p);
    FinishShape(fs, nx, scanInfo, v, f, p, columns, input, before);
  }

  /** A confound request that raises stops the run before anything is
      smoothed or written. */
  lemma ResolveFailureStopsEarly(fs: FileSystem, nx: Numerics, cwd: string, scanInfo: string, v: Version, f: Inputs, p: Params)
    requires ReadCsv(fs, f.confounds).Ok?
    requires Resolve(p.confList, ReadCsv(fs, f.confounds).value, DialectOf(fs, v)).Err?
    ensures RunFrom(fs, nx, cwd, scanInfo, v, f, p) ==
      Run([], Err(Resolve(p.confList, ReadCsv(fs, f.confounds).value, DialectOf(fs, v)).error))
  {
  }

  /** A missing confounds file raises FileNotFoundError (from `read_csv`)
      before any step; a missing bold file raises ValueError (from
      `smooth_img`) once the confounds are resolved, also before any step. */
  lemma MissingInputStopsRegress(fs: FileSystem, nx: Numerics, cwd: string, scanInfo: string, v: Version, f: Inputs, p: Params)
    ensures f.confounds !in fs.tables ==>
      RunFrom(fs, nx, cwd, scanInfo, v, f, p) == Run([], Err(FileNotFoundError(f.confounds)))
    ensures (f.confounds in fs.tables && Resolve(p.confList, fs.tables[f.confounds], DialectOf(fs, v)).Ok? &&
             f.bold !in fs.images) ==>
      RunFrom(fs, nx, cwd, scanInfo, v, f, p) == Run([], Err(ValueError))
  {
  }

  /** Requesting `aCompCor` makes either copy raise TypeError before any
      step, whenever its confounds table can be read (and, in the current
      copy, so can the displacement table). */
  lemma ACompCorStopsRegress(fs: FileSystem, nx: Numerics, cwd: string, scanInfo: string, v: Version, f: Inputs, p: Params)
    requires "aCompCor" in p.confList && f.confounds in fs.tables
    requires v.Current? ==> v.fdFile in fs.tables
    ensures RunFrom(fs, nx, cwd, scanInfo, v, f, p) == Run([], Err(TypeError))
  {
    var t := ReadCsv(fs, f.confounds).value;
    RaisesIffACompCor(p.confList, t, DialectOf(fs, v));
  }

  /** Numerical routines that keep the number of frames. */
  ghost predicate KeepsFrameCount(nx: Numerics) {
    (forall img: Image, fwhm: real :: |nx.smooth(img, fwhm).frames| == |img.frames|) &&
    (forall img: Image, args: CleanArgs :: nx.clean(img, args).Some? ==> |nx.clean(img, args).value.frames| == |img.frames|)
  }

  /** Without AROMA, when smoothing and cleaning keep the frame count, the
      saved image has as many frames as the input, or, when scrubbing, as
      many as the mask keeps. */
  lemma SavedFrameCount(fs: FileSystem, nx: Numerics, cwd: string, scanInfo: string, v: Version, f: Inputs, p: Params)
    requires KeepsFrameCount(nx) && !p.runAroma
    requires RunFrom(fs, nx, cwd, scanInfo, v, f, p).result.Ok?
    ensures f.bold in fs.images
    ensures var r := RunFrom(fs, nx, cwd, scanInfo, v, f, p);
      var saved := r.steps[|r.steps| - 1];
      saved.SaveImage? &&
      (!(v.Current? && p.applyScrubbing) ==> |saved.img.frames| == |fs.images[f.bold].frames|) &&
      (v.Current? && p.applyScrubbing ==>
        v.fdFile in fs.tables && Get(fs.tables[v.fdFile], "Mean").Some? &&
        |saved.img.frames| == CountTrue(MaskOf(Get(fs.tables[v.fdFile], "Mean").value, p.scrubbingThreshold)) <= |fs.images[f.bold].frames|)
  {
    var (columns, input, before) := Prepared(fs, nx, cwd, scanInfo, v, f, p);
    PreparedSpec(fs, nx, cwd, scanInfo, v, f, p);
    FinishShape(fs, nx, scanInfo, v, f, p, columns, input, before);
    var cleaned := nx.clean(input, CleanArgsFor(f, p, columns));
    if v.Current? && p.applyScrubbing {
      ScrubbedSpec(cleaned.value, ReadCsv(fs, v.fdFile), p.scrubbingThreshold);
    }
  }

  /** With AROMA, the smoothed image is saved under the output directory, the
      `.par` file is written from the confounds table, and ICA-AROMA gets the
      smoothed file, its own sub-directory, the `.par` file, both masks and
      TR; `-dim` is passed by the current copy only. */
  lemma AromaSteps(fs: FileSystem, nx: Numerics, cwd: string, scanInfo: string, v: Version, f: Inputs, p: Params)
    requires p.runAroma && RunFrom(fs, nx, cwd, scanInfo, v, f, p).result.Ok?
    ensures ParFor(fs, cwd, v, f.confounds).Ok?
    ensures var r := RunFrom(fs, nx, cwd, scanInfo, v, f, p);
      var smoothPath := AbsPath(cwd, p.outDir + "/" + scanInfo + "_smoothed.nii.gz");
      var par := ParFor(fs, cwd, v, f.confounds).value;
      |r.steps| > 3 &&
      r.steps[1].SaveImage? && r.steps[1].path == smoothPath &&
      r.steps[2] == WritePar(par) &&
      r.steps[3].RunAroma? &&
      var call := r.steps[3].call;
      call.inFile == AbsPath(cwd, smoothPath) &&
      call.outDir == AbsPath(cwd, p.outDir + "/" + scanInfo + "_aroma") &&
      call.mcFile == AbsPath(cwd, par.path) && call.brainMask == AbsPath(cwd, f.brainMask) &&
      call.csfMask == AbsPath(cwd, f.csfMask) && call.tr == p.tr &&
      call.dim == (if v.Current? then Some(p.aromaDim) else None)
  {
    var (columns, input, before) := Prepared(fs, nx, cwd, scanInfo, v, f, p);
    PreparedContinues(fs, nx, cwd, scanInfo, v, f, p);
    FinishShape(fs, nx, scanInfo, v, f, p, columns, input, before);
    PreparedAroma(fs, nx, cwd, scanInfo, v, f, p);
    var smoothed := nx.smooth(fs.images[f.bold], p.smoothing);
    AromaStageSteps(fs, nx, cwd, scanInfo, v, f, p, smoothed);
    var r := RunFrom(fs, nx, cwd, scanInfo, v, f, p);
    assert r.steps[..4] == before[..4];
    assert r.steps[1..4] == AromaStage(fs, nx, cwd, scanInfo, v, f, p, smoothed).0;
  }

  /** With AROMA, a run that gets to cleaning has smoothed and then gone
      through a completed AROMA stage. */
  lemma PreparedAroma(fs: FileSystem, nx: Numerics, cwd: string, scanInfo: string, v: Version, f: Inputs, p: Params)
    requires p.runAroma
    ensures var before := Prepared(fs, nx, cwd, scanInfo, v, f, p).2;
      before != [] ==>
        f.bold in fs.images &&
        var stage := AromaStage(fs, nx, cwd, scanInfo, v, f, p, nx.smooth(fs.images[f.bold], p.smoothing));
        stage.1.Ok? && before == [Smooth(f.bold, p.smoothing)] + stage.0
  {
  }

  /** A completed AROMA stage saves the smoothed image, writes the `.par`
      file and calls ICA-AROMA on them. */
  lemma AromaStageSteps(fs: FileSystem, nx: Numerics, cwd: string, scanInfo: string, v: Version,
                        f: Inputs, p: Params, smoothed: Image)
    ensures var (more, input) := AromaStage(fs, nx, cwd, scanInfo, v, f, p, smoothed);
      var smoothPath := AbsPath(cwd, p.outDir + "/" + scanInfo + "_smoothed.nii.gz");
      input.Ok? ==>
        ParFor(fs, cwd, v, f.confounds).Ok? &&
        var par := ParFor(fs, cwd, v, f.confounds).value;
        |more| == 3 && more[0].SaveImage? && more[0].path == smoothPath && more[1] == WritePar(par) &&
        more[2].RunAroma? &&
        var call := more[2].call;
        call.inFile == AbsPath(cwd, smoothPath) &&
        call.outDir == AbsPath(cwd, p.outDir + "/" + scanInfo + "_aroma") &&
        call.mcFile == AbsPath(cwd, par.path) && call.brainMask == AbsPath(cwd, f.brainMask) &&
        call.csfMask == AbsPath(cwd, f.csfMask) && call.tr == p.tr &&
        call.dim == (if v.Current? then Some(p.aromaDim) else None) &&
        nx.aroma(call) == Some(input.value)
  {
  }

  /** With AROMA, when the run leaves no denoised output file, `clean_img`
      raises ValueError: the run stops after calling ICA-AROMA, before any
      cleaning or saving of a result. */
  lemma MissingAromaOutputRaises(fs: FileSystem, nx: Numerics, cwd: string, scanInfo: string, v: Version,
                                 f: Inputs, p: Params)
    requires p.runAroma && f.confounds in fs.tables && f.bold in fs.images
    requires Resolve(p.confList, fs.tables[f.confounds], DialectOf(fs, v)).Ok?
    requires ParFor(fs, cwd, v, f.confounds).Ok?
    requires nx.aroma(AromaCallFor(cwd, scanInfo, v, f, p, ParFor(fs, cwd, v, f.confounds).value)).None?
    ensures var r := RunFrom(fs, nx, cwd, scanInfo, v, f, p);
      r.result == Err(ValueError) && Kinds(r.steps) == [SmoothKind, SaveKind, ParKind, AromaKind] &&
      r.steps[3] == RunAroma(AromaCallFor(cwd, scanInfo, v, f, p, ParFor(fs, cwd, v, f.confounds).value))
  {
  }

  /** Without AROMA and scrubbing, and without a `mean_FD` request, the two
      copies of `regress` behave alike once the current one finds the scan's
      displacement file. */
  lemma LegacyAgreesWithCurrent(fs: FileSystem, nx: Numerics, cwd: string, scanInfo: string, files: FileLists, p: Params)
    requires !p.runAroma && !p.applyScrubbing && "mean_FD" !in p.confList
    requires !NoMatch(scanInfo, files.fd)
    ensures LegacyRegressSpec(fs, nx, cwd, scanInfo, files, p) == RegressSpec(fs, nx, cwd, scanInfo, files, p)
  {
    LegacyLocateIsPrefixOfLocate(scanInfo, files.bold, files.brainMask, files.confounds, files.csfMask, files.fd);
    LocatedIsFirstMatch(scanInfo, files.fd);
    var located := Locate(scanInfo, files.bold, files.brainMask, files.confounds, files.csfMask, files.fd);
    if located.Ok? {
      var s := located.value;
      var f := Inputs(s.bold, s.brainMask, s.confounds, s.csfMask);
      if f.confounds in fs.tables {
        DialectsAgreeWithoutMeanFD(p.confList, fs.tables[f.confounds], ReadCsv(fs, s.fd));
      }
    }
  }

  /** A scan whose files cannot all be found raises before any step. */
  lemma UnfoundScanStopsRegress(fs: FileSystem, nx: Numerics, cwd: string, scanInfo: string, files: FileLists, p: Params)
    requires NoMatch(scanInfo, files.bold)
    ensures RegressSpec(fs, nx, cwd, scanInfo, files, p) == Run([], Err(UnboundLocalError("bold_file")))
    ensures LegacyRegressSpec(fs, nx, cwd, scanInfo, files, p) == Run([], Err(UnboundLocalError("bold_file")))
  {
    LocateFindsFirstMatches(scanInfo, files.bold, files.brainMask, files.confounds, files.csfMask, files.fd);
    LegacyLocateIsPrefixOfLocate(scanInfo, files.bold, files.brainMask, files.confounds, files.csfMask, files.fd);
  }

  /** The `if run_aroma:` block of `regress`. */
  method RunAromaBranch(fs: FileSystem, nx: Numerics, cwd: string, scanInfo: string, v: Version, f: Inputs, p: Params,
                        smoothed: Image)
    returns (steps: seq<Step>, cleaningInput: Result<Image>)
    ensures (steps, cleaningInput) == AromaStage(fs, nx, cwd, scanInfo, v, f, p, smoothed)
  {
    var smoothPath := AbsPath(cwd, p.outDir + "/" + scanInfo + "_smoothed.nii.gz");
    steps := [SaveImage(smoothPath, smoothed)];
    var par := ParFor(fs, cwd, v, f.confounds);
    if par.Err? {
      return steps, Err(par.error);
    }
    steps := steps + [WritePar(par.value)];
    var call := AromaCallFor(cwd, scanInfo, v, f, p, par.value);
    steps := steps + [RunAroma(call)];
    assert steps == [SaveImage(smoothPath, smoothed)] + [WritePar(par.value), RunAroma(call)];
    var out := nx.aroma(call);
    if out.None? {
      return steps, Err(ValueError);
    }
    cleaningInput := Ok(out.value);
  }

  /** Cleaning, the `if apply_scrubbing:` block and the save, after `steps`. */
  method CleanAndSave(fs: FileSystem, nx: Numerics, scanInfo: string, v: Version, f: Inputs, p: Params,
                      confoundsList: seq<Option<Column>>, cleaningInput: Image, steps: seq<Step>)
    returns (r: Run)
    ensures r == Finish(fs, nx, scanInfo, v, f, p, confoundsList, cleaningInput, steps)
  {
    var args := CleanArgs(true, true, p.lowPass, p.highPass, None, p.tr, f.brainMask);
    if |confoundsList| > 0 {
      args := args.(confounds := Some(confoundsList));
    }
    var result := nx.clean(cleaningInput, args);
    if result.None? {
      return Run(steps, Err(ValueError));
    }
    var cleaned := result.value;
    var steps := steps + [Clean(args)];
    if v.Current? && p.applyScrubbing {
      steps := steps + [ScrubFrames(v.fdFile, p.scrubbingThreshold)];
      var scrubbed := Scrub(fs, cleaned, v.fdFile, p.scrubbingThreshold);
      if scrubbed.Err? {
        return Run(steps, Err(scrubbed.error));
      }
      cleaned := scrubbed.value;
    }
    var cleanedPath := p.outDir + "/" + scanInfo + "_cleaned.nii.gz";
    steps := steps + [SaveImage(cleanedPath, cleaned)];
    return Run(steps, Ok(cleanedPath));
  }

  /** The body of `regress` after `find_scans`, statement by statement. */
  method RunPipeline(fs: FileSystem, nx: Numerics, cwd: string, scanInfo: string, v: Version, f: Inputs, p: Params)
    returns (r: Run)
    ensures r == RunFrom(fs, nx, cwd, scanInfo, v, f, p)
  {
    var confounds := ReadCsv(fs, f.confounds);
    if confounds.Err? {
      return Run([], Err(confounds.error));
    }
    var confoundsList := ResolveConfounds(p.confList, confounds.value, DialectOf(fs, v));
    if confoundsList.Err? {
      return Run([], Err(confoundsList.error));
    }
    var bold := LoadImage(fs, f.bold);
    if bold.Err? {
      return Run([], Err(bold.error));
    }
    var steps := [Smooth(f.bold, p.smoothing)];
    var cleaningInput := nx.smooth(bold.value, p.smoothing);
    if p.runAroma {
      var more, aromaOutput := RunAromaBranch(fs, nx, cwd, scanInfo, v, f, p, cleaningInput);
      steps := steps + more;
      if aromaOutput.Err? {
        return Run(steps, Err(aromaOutput.error));
      }
      cleaningInput := aromaOutput.value;
    }
    r := CleanAndSave(fs, nx, scanInfo, v, f, p, confoundsList.value, cleaningInput, steps);
  }

  /** `regress` of conf_reg/utils.py. */
  method Regress(fs: FileSystem, nx: Numerics, cwd: string, scanInfo: string, files: FileLists, p: Params)
    returns (r: Run)
    ensures r == RegressSpec(fs, nx, cwd, scanInfo, files, p)
  {
    var located := FindScans(scanInfo, files.bold, files.brainMask, files.confounds, files.csfMask, files.fd);
    if located.Err? {
      return Run([], Err(located.error));
    }
    var s := located.value;
    r := RunPipeline(fs, nx, cwd, scanInfo, Current(s.fd), Inputs(s.bold, s.brainMask, s.confounds, s.csfMask), p);
  }

  /** `regress` of confound_regression.py. */
  method LegacyRegress(fs: FileSystem, nx: Numerics, cwd: string, scanInfo: string, files: FileLists, p: Params)
    returns (r: Run)
    ensures r == LegacyRegressSpec(fs, nx, cwd, scanInfo, files, p)
  {
    var located := FindScansLegacy(scanInfo, files.bold, files.brainMask, files.confounds, files.csfMask);
    if located.Err? {
      return Run([], Err(located.error));
    }
    var s := located.value;
    r := RunPipeline(fs, nx, cwd, scanInfo, Legacy, Inputs(s.bold, s.brainMask, s.confounds, s.csfMask), p);
  }
}
