/** The argument checks and preparation that the bundled ICA-AROMA script
    (mod_ICA_AROMA/ICA_AROMA.py) performs before it hands over to MELODIC and
    the classifier: the `cancel` flag, the denoising type, the FSL directory,
    the output directory, the TR and the copied mask. The disk is a set of
    file paths and a set of directory paths. */
module IcaAroma {
  import opened Outcomes
  import opened PyStr

  /** The parsed command line (`args`). `inFile`, `mc` and `tr` have no
      default; `mask`, `maskCsf` and `melDir` default to "", `denType` to
      "nonaggr", `dim` to 0 and `overwrite` to false. */
  datatype Args = Args(inFile: Option<string>, mc: Option<string>, mask: string, maskCsf: string,
                       outDir: string, tr: Option<real>, denType: string, melDir: string,
                       dim: int, overwrite: bool)

  datatype Disk = Disk(files: set<string>, dirs: set<string>)

  /** What the script goes on to run once it is prepared. */
  datatype Plan = Plan(fslDir: string, inFile: Option<string>, outDir: string, melDir: string,
                       mask: string, maskCsf: string, mc: Option<string>, dim: int, tr: real,
                       denType: string)

  /** How the preparation ends: one of the three `exit()` calls, an
      exception, or ready to run. */
  datatype Outcome = Canceled | OutputExists | ZeroTR | Crashed(error: Error) | Ready(plan: Plan)

  /** The external routines the script calls after preparing, in order. */
  datatype AromaStep =
    | Melodic(fslDir: string, inFile: Option<string>, outDir: string, melDir: string, mask: string,
              dim: int, tr: real)
    | Classify(outDir: string, maskCsf: string, mc: Option<string>, tr: real)
    | Denoise(fslDir: string, inFile: Option<string>, outDir: string, denType: string)

  /** `if not x` on an optional string argument is false only for a
      non-empty string. */
  predicate Specified(x: Option<string>) {
    x.Some? && x.value != ""
  }

  /** `if args.TR` on an optional float: absent and 0.0 are both false. */
  predicate TrGiven(tr: Option<real>) {
    tr.Some? && tr.value != 0.0
  }

  const DenTypes: set<string> := {"nonaggr", "aggr", "both", "no"}

  /** A specified file that does not exist cancels the run; an input or mc
      file that is not specified does not. */
  predicate ShouldCancel(d: Disk, a: Args) {
    (Specified(a.inFile) && a.inFile.value !in d.files) ||
    (Specified(a.mc) && a.mc.value !in d.files) ||
    (a.mask != "" && a.mask !in d.files)
  }

  function NormalizeDenType(t: string): (r: string)
    ensures r in DenTypes
  {
    if t != "nonaggr" && t != "aggr" && t != "both" && t != "no" then "nonaggr" else t
  }

  /** A path lies under a directory when it is the directory or below it. */
  predicate Under(x: string, p: string) {
    x == p || StartsWith(x, p + "/")
  }

  /** `shutil.rmtree(p)`. */
  function RemovedTree(d: Disk, p: string): Disk {
    Disk(set f | f in d.files && !Under(f, p), set x | x in d.dirs && !Under(x, p))
  }

  /** `os.makedirs(p)`: an existing path raises, and so does "". */
  function MadeDirs(d: Disk, p: string): Result<Disk> {
    if p == "" then Err(FileNotFoundError(p))
    else if p in d.dirs || p in d.files then Err(FileExistsError(p))
    else Ok(Disk(d.files, d.dirs + {p}))
  }

  /** `shutil.copyfile(src, dst)`: the source must be an existing file, and
      the empty path never names one. */
  function CopiedFile(d: Disk, src: string, dst: string): Result<Disk> {
    if src == "" || src !in d.files then Err(FileNotFoundError(src))
    else Ok(Disk(d.files + {dst}, d.dirs))
  }

  /** The TR: the argument when truthy, otherwise the header value that
      `fslinfo` reports (None when its output is not a number). The command
      line joins `inFile` into a string, so an absent input file raises. */
  function ReadTr(a: Args, headerTr: Option<real>): Result<real> {
    if TrGiven(a.tr) then Ok(a.tr.value)
    else if a.inFile.None? then Err(TypeError)
    else if headerTr.None? then Err(ValueError)
    else Ok(headerTr.value)
  }

  /** `os.path.join(os.environ["FSLDIR"], 'bin', '')` */
  function FslDir(env: map<string, string>): Result<string> {
    if "FSLDIR" in env then Ok(PathJoin(PathJoin(env["FSLDIR"], "bin"), "")) else Err(KeyError("FSLDIR"))
  }

  function MaskPath(outDir: string): string {
    PathJoin(outDir, "mask.nii.gz")
  }

  /** The output-directory step: abort on an existing directory without
      overwrite, replace it with overwrite, create it otherwise. */
  function OutputStep(d: Disk, outDir: string, overwrite: bool): Option<Result<Disk>> {
    if outDir in d.dirs && !overwrite then None
    else if outDir in d.dirs then Some(MadeDirs(RemovedTree(d, outDir), outDir))
    else Some(MadeDirs(d, outDir))
  }

  /** What follows a successful directory step: the TR check and the mask
      copy. */
  function AfterOutputStep(d: Disk, a: Args, fslDir: string, headerTr: Option<real>): (Outcome, Disk) {
    var tr := ReadTr(a, headerTr);
    if tr.Err? then (Crashed(tr.error), d)
    else if tr.value == 0.0 then (ZeroTR, d)
    else
      var copied := CopiedFile(d, a.mask, MaskPath(a.outDir));
      if copied.Err? then (Crashed(copied.error), d)
      else
        (Ready(Plan(fslDir, a.inFile, a.outDir, a.melDir, MaskPath(a.outDir), a.maskCsf, a.mc, a.dim,
                    tr.value, NormalizeDenType(a.denType))),
         copied.value)
  }

  /** The script from parsing to the mask copy, with the disk it leaves. */
  function Prepare(d: Disk, a: Args, env: map<string, string>, headerTr: Option<real>): (Outcome, Disk) {
    if ShouldCancel(d, a) then (Canceled, d)
    else
      var fsl := FslDir(env);
      if fsl.Err? then (Crashed(fsl.error), d)
      else
        var step := OutputStep(d, a.outDir, a.overwrite);
        if step.None? then (OutputExists, d)
        else if step.value.Err? then (Crashed(step.value.error), if a.outDir in d.dirs then RemovedTree(d, a.outDir) else d)
        else AfterOutputStep(step.value.value, a, fsl.value, headerTr)
  }

  /** The routines a prepared run calls; denoising only when the type is not
      'no'. */
  function Steps(p: Plan): seq<AromaStep> {
    [Melodic(p.fslDir, p.inFile, p.outDir, p.melDir, p.mask, p.dim, p.tr),
     Classify(p.outDir, p.maskCsf, p.mc, p.tr)] +
    (if p.denType != "no" then [Denoise(p.fslDir, p.inFile, p.outDir, p.denType)] else [])
  }

  // ---------------------------------------------------------------------
  // Properties of the preparation

  /** The four recognised types are kept; anything else becomes 'nonaggr'. */
  lemma NormalizeDenTypeKeepsValid(t: string)
    ensures NormalizeDenType(t) == t <==> t in DenTypes
    ensures t !in DenTypes ==> NormalizeDenType(t) == "nonaggr"
  {
  }

  /** Normalising twice changes nothing. */
  lemma NormalizeDenTypeIdempotent(t: string)
    ensures NormalizeDenType(NormalizeDenType(t)) == NormalizeDenType(t)
  {
  }

  /** The run is canceled exactly when a specified input, mc or mask file is
      missing, and a canceled run touches nothing. An input or mc file that
      is not given at all does not cancel. */
  lemma CancelIff(d: Disk, a: Args, env: map<string, string>, headerTr: Option<real>)
    ensures var (o, d') := Prepare(d, a, env, headerTr);
      (o == Canceled <==>
        (Specified(a.inFile) && a.inFile.value !in d.files) ||
        (Specified(a.mc) && a.mc.value !in d.files) ||
        (a.mask != "" && a.mask !in d.files)) &&
      (o == Canceled ==> d' == d)
    ensures !Specified(a.inFile) && !Specified(a.mc) && a.mask == "" ==>
      Prepare(d, a, env, headerTr).0 != Canceled
  {
  }

  /** `os.environ["FSLDIR"]` is read before the output directory is touched:
      without it an uncanceled run raises KeyError and leaves the disk as it
      was. */
  lemma MissingFslDirRaises(d: Disk, a: Args, env: map<string, string>, headerTr: Option<real>)
    requires !ShouldCancel(d, a) && "FSLDIR" !in env
    ensures Prepare(d, a, env, headerTr) == (Crashed(KeyError("FSLDIR")), d)
  {
  }

  /** An existing output directory stops the run when overwrite is off, and
      only then; with overwrite on that exit is never taken. */
  lemma OutputExistsIff(d: Disk, a: Args, env: map<string, string>, headerTr: Option<real>)
    ensures var (o, d') := Prepare(d, a, env, headerTr);
      (o == OutputExists <==> !ShouldCancel(d, a) && "FSLDIR" in env && a.outDir in d.dirs && !a.overwrite) &&
      (o == OutputExists ==> d' == d) &&
      (a.overwrite ==> o != OutputExists)
  {
  }

  /** The run gets past the directory step: it is not canceled, FSLDIR is
      set, and the output directory is in place. */
  predicate PastOutputStep(d: Disk, a: Args, env: map<string, string>) {
    !ShouldCancel(d, a) && "FSLDIR" in env &&
    var step := OutputStep(d, a.outDir, a.overwrite);
    step.Some? && step.value.Ok?
  }

  /** Past the directory step the output directory exists, and the run ends
      with a zero TR, a prepared plan, or a crash reading the TR (TypeError,
      ValueError) or copying the mask (FileNotFoundError). Paths outside the
      directory are never removed. With overwrite, nothing that was under it
      survives: every run that stops short of a plan leaves it empty, a
      prepared run leaves only the copied mask in it. */
  lemma OutputDirectoryReady(d: Disk, a: Args, env: map<string, string>, headerTr: Option<real>)
    requires PastOutputStep(d, a, env)
    ensures var (o, d') := Prepare(d, a, env, headerTr);
      a.outDir != "" && a.outDir in d'.dirs &&
      (o.ZeroTR? || o.Ready? ||
       o == Crashed(TypeError) || o == Crashed(ValueError) || o == Crashed(FileNotFoundError(a.mask))) &&
      (forall f :: f in d.files && !Under(f, a.outDir) ==> f in d'.files) &&
      (forall x :: x in d.dirs && !Under(x, a.outDir) ==> x in d'.dirs) &&
      (a.overwrite && a.outDir in d.dirs && !o.Ready? ==>
        forall f :: f in d'.files ==> !StartsWith(f, a.outDir + "/")) &&
      (a.overwrite && a.outDir in d.dirs && o.Ready? ==>
        forall f :: f in d'.files && StartsWith(f, a.outDir + "/") ==> f == MaskPath(a.outDir))
  {
  }

  /** A zero-TR exit or a prepared plan comes only after the directory step. */
  lemma LateOutcomesPastOutputStep(d: Disk, a: Args, env: map<string, string>, headerTr: Option<real>)
    ensures var o := Prepare(d, a, env, headerTr).0;
      o.ZeroTR? || o.Ready? ==> PastOutputStep(d, a, env)
  {
  }

  /** The TR is the argument when truthy, else the header value; a prepared
      run never has TR 0, and the zero-TR exit comes after the output
      directory is in place. */
  lemma TrChoice(d: Disk, a: Args, env: map<string, string>, headerTr: Option<real>)
    ensures var (o, d') := Prepare(d, a, env, headerTr);
      (o.Ready? ==>
        o.plan.tr != 0.0 && o.plan.tr == (if TrGiven(a.tr) then a.tr.value else headerTr.value)) &&
      (o.ZeroTR? ==> !TrGiven(a.tr) && headerTr == Some(0.0) && a.outDir in d'.dirs)
  {
    var o := Prepare(d, a, env, headerTr).0;
    if o.Ready? || o.ZeroTR? {
      LateOutcomesPastOutputStep(d, a, env, headerTr);
      OutputDirectoryReady(d, a, env, headerTr);
    }
  }

  /** Without a TR argument and without an input file the header cannot be
      read: the run raises TypeError after creating the output directory. */
  lemma NoInputNoTrRaises(d: Disk, a: Args, env: map<string, string>, headerTr: Option<real>)
    requires !ShouldCancel(d, a) && "FSLDIR" in env && !a.overwrite && a.outDir !in d.dirs
    requires a.outDir != "" && a.outDir !in d.files
    requires a.inFile.None? && !TrGiven(a.tr)
    ensures Prepare(d, a, env, headerTr) == (Crashed(TypeError), Disk(d.files, d.dirs + {a.outDir}))
  {
  }

  /** The mask argument defaults to "", but a prepared run needs an existing
      mask file: with the default the copy raises FileNotFoundError. */
  lemma MaskRequired(d: Disk, a: Args, env: map<string, string>, headerTr: Option<real>)
    ensures var (o, d') := Prepare(d, a, env, headerTr);
      (o.Ready? ==>
        a.mask != "" && a.mask in d.files && MaskPath(a.outDir) in d'.files && o.plan.mask == MaskPath(a.outDir)) &&
      (a.mask == "" ==> !o.Ready?)
  {
    if Prepare(d, a, env, headerTr).0.Ready? {
      var step := OutputStep(d, a.outDir, a.overwrite);
      assert step.Some? && step.value.Ok?;
      assert step.value.value.files <= d.files;
    }
  }

  /** A prepared run carries the FSL bin directory, ending in '/', and the
      normalised denoising type. */
  lemma PlanSettings(d: Disk, a: Args, env: map<string, string>, headerTr: Option<real>)
    requires Prepare(d, a, env, headerTr).0.Ready?
    ensures var p := Prepare(d, a, env, headerTr).0.plan;
      "FSLDIR" in env && p.fslDir == PathJoin(PathJoin(env["FSLDIR"], "bin"), "") &&
      |p.fslDir| > 0 && p.fslDir[|p.fslDir| - 1] == '/' &&
      p.denType == NormalizeDenType(a.denType) && p.outDir == a.outDir
  {
    var b := PathJoin(env["FSLDIR"], "bin");
    assert |b| > 0 by {
      if StartsWith("bin", "/") {
        assert "bin"[0] == 'b';
      }
    }
  }

  /** Denoising runs, last, exactly when the type is not 'no', and then with
      one of the three denoising types. */
  lemma DenoiseIff(p: Plan)
    requires p.denType in DenTypes
    ensures var s := Steps(p);
      (s[|s| - 1].Denoise? <==> p.denType != "no") &&
      (forall i :: 0 <= i < |s| && s[i].Denoise? ==> i == |s| - 1 && s[i].denType in {"nonaggr", "aggr", "both"})
  {
  }

  /** For a prepared run the denoiser receives the normalised type: an
      unrecognised one is run as 'nonaggr', and 'no' skips it. */
  lemma PreparedDenoising(d: Disk, a: Args, env: map<string, string>, headerTr: Option<real>)
    requires Prepare(d, a, env, headerTr).0.Ready?
    ensures var s := Steps(Prepare(d, a, env, headerTr).0.plan);
      (a.denType == "no" ==> |s| == 2) &&
      (a.denType != "no" ==> |s| == 3 && s[2] == Denoise(s[0].fslDir, a.inFile, a.outDir, NormalizeDenType(a.denType))) &&
      (a.denType !in DenTypes ==> s[|s| - 1].Denoise? && s[|s| - 1].denType == "nonaggr")
  {
    var p := Prepare(d, a, env, headerTr).0.plan;
    PlanSettings(d, a, env, headerTr);
    DenoiseIff(p);
  }

  // ---------------------------------------------------------------------
  // The script, statement by statement, against a mutable disk

  class Host {
    var files: set<string>
    var dirs: set<string>

    constructor (files0: set<string>, dirs0: set<string>)
      ensures files == files0 && dirs == dirs0
    {
      files := files0;
      dirs := dirs0;
    }

    function State(): Disk
      reads this
    {
      Disk(files, dirs)
    }

    /** Lines 51-82: the flag starts false and each missing specified file
        sets it. */
    method CancelFlag(a: Args) returns (cancel: bool)
      ensures cancel <==> ShouldCancel(State(), a)
    {
      cancel := false;
      if !Specified(a.inFile) {
      } else if a.inFile.value !in files {
        cancel := true;
      }
      if !Specified(a.mc) {
      } else if a.mc.value !in files {
        cancel := true;
      }
      if a.mask != "" {
        if a.mask !in files {
          cancel := true;
        }
      }
    }

    method RemoveTree(p: string)
      modifies this
      ensures State() == RemovedTree(old(State()), p)
    {
      files := set f | f in files && !Under(f, p);
      dirs := set x | x in dirs && !Under(x, p);
    }

    method MakeDirs(p: string) returns (err: Option<Error>)
      modifies this
      ensures var s := MadeDirs(old(State()), p);
        (s.Ok? <==> err.None?) && (s.Ok? ==> State() == s.value) &&
        (s.Err? ==> err == Some(s.error) && State() == old(State()))
    {
      if p == "" {
        return Some(FileNotFoundError(p));
      }
      if p in dirs || p in files {
        return Some(FileExistsError(p));
      }
      dirs := dirs + {p};
      return None;
    }

    method CopyFile(src: string, dst: string) returns (err: Option<Error>)
      modifies this
      ensures var s := CopiedFile(old(State()), src, dst);
        (s.Ok? <==> err.None?) && (s.Ok? ==> State() == s.value) &&
        (s.Err? ==> err == Some(s.error) && State() == old(State()))
    {
      if src == "" || src !in files {
        return Some(FileNotFoundError(src));
      }
      files := files + {dst};
      return None;
    }

    /** Lines 112-128: the TR and the mask copy, once the output directory
        is in place. */
    method TrAndMask(a: Args, fslDir: string, denType: string, headerTr: Option<real>) returns (o: Outcome)
      requires denType == NormalizeDenType(a.denType)
      modifies this
      ensures (o, State()) == AfterOutputStep(old(State()), a, fslDir, headerTr)
    {
      var tr: real;
      if a.tr.Some? && a.tr.value != 0.0 {
        tr := a.tr.value;
      } else {
        if a.inFile.None? {
          return Crashed(TypeError);
        }
        if headerTr.None? {
          return Crashed(ValueError);
        }
        tr := headerTr.value;
      }
      if tr == 0.0 {
        return ZeroTR;
      }
      var mask := PathJoin(a.outDir, "mask.nii.gz");
      var err := CopyFile(a.mask, mask);
      if err.Some? {
        return Crashed(err.value);
      }
      return Ready(Plan(fslDir, a.inFile, a.outDir, a.melDir, mask, a.maskCsf, a.mc, a.dim, tr, denType));
    }

    /** Lines 51-128 of the script. */
    method Run(a: Args, env: map<string, string>, headerTr: Option<real>) returns (o: Outcome)
      modifies this
      ensures (o, State()) == Prepare(old(State()), a, env, headerTr)
    {
      var cancel := CancelFlag(a);
      var denType := a.denType;
      if !(denType == "nonaggr") && !(denType == "aggr") && !(denType == "both") && !(denType == "no") {
        denType := "nonaggr";
      }
      assert denType == NormalizeDenType(a.denType);
      if cancel {
        return Canceled;
      }
      if "FSLDIR" !in env {
        return Crashed(KeyError("FSLDIR"));
      }
      var fslDir := PathJoin(PathJoin(env["FSLDIR"], "bin"), "");
      var err: Option<Error>;
      if a.outDir in dirs && !a.overwrite {
        return OutputExists;
      } else if a.outDir in dirs && a.overwrite {
        RemoveTree(a.outDir);
        err := MakeDirs(a.outDir);
      } else {
        err := MakeDirs(a.outDir);
      }
      if err.Some? {
        return Crashed(err.value);
      }
      o := TrAndMask(a, fslDir, denType, headerTr);
    }
  }
}
