/** cleaning_arg.py: a one-scan script that builds its input paths from a
    directory and a subject name, resolves the confounds with the older loop,
    smooths at 0.3, cleans with a 0.01 high-pass filter and saves. */
module CleaningArg {
  import opened Outcomes
  import opened PyStr
  import opened Data
  import opened ScanFiles
  import opened Confounds
  import opened Regress

  /** `file_path + '/%s_ses-1_run-1_<suffix>' % sub` */
  function Template(filePath: string, sub: string, suffix: string): string {
    filePath + "/" + sub + "_ses-1_run-1_" + suffix
  }

  function BoldFile(filePath: string, sub: string): string {
    Template(filePath, sub, "combined.nii.gz")
  }

  function ConfoundsFile(filePath: string, sub: string): string {
    Template(filePath, sub, "confounds.csv")
  }

  function BrainMaskFile(filePath: string, sub: string): string {
    Template(filePath, sub, "brain_mask.nii.gz")
  }

  /** The smoothing width and high-pass cut-off the script fixes. */
  const Fwhm: real := 0.3
  const HighPass: real := 0.01

  /** What `clean_img` receives: the confound array is always passed, empty
      or not. */
  function ScriptCleanArgs(filePath: string, sub: string, tr: real, columns: seq<Option<Column>>): CleanArgs {
    CleanArgs(true, true, None, Some(HighPass), Some(columns), tr, BrainMaskFile(filePath, sub))
  }

  /** What a run of the script does. */
  function CleaningArgSpec(fs: FileSystem, nx: Numerics, filePath: string, sub: string, outDir: string,
                           tr: real, confList: seq<string>): Run
  {
    var confounds := ReadCsv(fs, ConfoundsFile(filePath, sub));
    if confounds.Err? then Run([], Err(confounds.error))
    else
      var resolved := Resolve(confList, confounds.value, WithoutMeanFD);
      if resolved.Err? then Run([], Err(resolved.error))
      else
        var bold := LoadImage(fs, BoldFile(filePath, sub));
        if bold.Err? then Run([], Err(bold.error))
        else
          var args := ScriptCleanArgs(filePath, sub, tr, resolved.value);
          var cleaned := nx.clean(nx.smooth(bold.value, Fwhm), args);
          if cleaned.None? then Run([Smooth(BoldFile(filePath, sub), Fwhm)], Err(ValueError))
          else
            var cleanedPath := outDir + "/" + sub + "_cleaned.nii.gz";
            Run([Smooth(BoldFile(filePath, sub), Fwhm), Clean(args), SaveImage(cleanedPath, cleaned.value)], Ok(cleanedPath))
  }

  /** The script, statement by statement. */
  method CleaningArgScript(fs: FileSystem, nx: Numerics, filePath: string, sub: string, outDir: string,
                           tr: real, confList: seq<string>)
    returns (r: Run)
    ensures r == CleaningArgSpec(fs, nx, filePath, sub, outDir, tr, confList)
  {
    var boldFile := BoldFile(filePath, sub);
    var confoundsFile := ConfoundsFile(filePath, sub);
    var brainMaskFile := BrainMaskFile(filePath, sub);
    var confounds := ReadCsv(fs, confoundsFile);
    if confounds.Err? {
      return Run([], Err(confounds.error));
    }
    var confoundsList := ResolveConfounds(confList, confounds.value, WithoutMeanFD);
    if confoundsList.Err? {
      return Run([], Err(confoundsList.error));
    }
    var bold := LoadImage(fs, boldFile);
    if bold.Err? {
      return Run([], Err(bold.error));
    }
    var smoothed := nx.smooth(bold.value, Fwhm);
    var args := CleanArgs(true, true, None, Some(HighPass), Some(confoundsList.value), tr, brainMaskFile);
    var cleaned := nx.clean(smoothed, args);
    if cleaned.None? {
      return Run([Smooth(boldFile, Fwhm)], Err(ValueError));
    }
    var cleanedPath := outDir + "/" + sub + "_cleaned.nii.gz";
    return Run([Smooth(boldFile, Fwhm), Clean(args), SaveImage(cleanedPath, cleaned.value)], Ok(cleanedPath));
  }

  /** Unlike `regress`, the script hands `clean_img` a confound array even
      when no column was resolved, and it always smooths at 0.3 and
      high-passes at 0.01 without a low-pass filter. */
  lemma ConfoundsAlwaysPassed(fs: FileSystem, nx: Numerics, filePath: string, sub: string, outDir: string,
                              tr: real, confList: seq<string>)
    requires CleaningArgSpec(fs, nx, filePath, sub, outDir, tr, confList).result.Ok?
    ensures var r := CleaningArgSpec(fs, nx, filePath, sub, outDir, tr, confList);
      var t := fs.tables[ConfoundsFile(filePath, sub)];
      ConfoundsFile(filePath, sub) in fs.tables && Resolve(confList, t, WithoutMeanFD).Ok? &&
      |r.steps| == 3 && r.steps[0] == Smooth(BoldFile(filePath, sub), Fwhm) && r.steps[1].Clean? &&
      r.steps[1].args.confounds == Some(Resolve(confList, t, WithoutMeanFD).value) &&
      r.steps[1].args.lowPass.None? && r.steps[1].args.highPass == Some(HighPass) &&
      r.steps[1].args.tr == tr && r.steps[1].args.maskImg == BrainMaskFile(filePath, sub)
  {
  }

  /** With no confound requested, the script still calls `clean_img`, and
      passes it an empty array where `regress` passes None: the run ends
      with the output path exactly when `clean_img` accepts that array, and
      with ValueError otherwise. */
  lemma EmptyRequestStillPassesArray(fs: FileSystem, nx: Numerics, filePath: string, sub: string, outDir: string, tr: real)
    requires ConfoundsFile(filePath, sub) in fs.tables && BoldFile(filePath, sub) in fs.images
    ensures var r := CleaningArgSpec(fs, nx, filePath, sub, outDir, tr, []);
      var args := ScriptCleanArgs(filePath, sub, tr, []);
      args.confounds == Some([]) && ConfoundsArg([]).None? &&
      (r.result.Ok? <==> nx.clean(nx.smooth(fs.images[BoldFile(filePath, sub)], Fwhm), args).Some?) &&
      (r.result.Ok? ==> r.result.value == outDir + "/" + sub + "_cleaned.nii.gz" && |r.steps| == 3 && r.steps[1] == Clean(args)) &&
      (r.result.Err? ==> r == Run([Smooth(BoldFile(filePath, sub), Fwhm)], Err(ValueError)))
  {
  }

  /** nilearn's length check on the confound array, as a property of
      `clean_img`: an array with no rows does not fit an image with frames. */
  ghost predicate RejectsEmptyConfounds(nx: Numerics) {
    forall img: Image, args: CleanArgs :: args.confounds == Some([]) && |img.frames| > 0 ==> nx.clean(img, args).None?
  }

  /** Under that check, the default `--conf_list` of `[]` makes the script
      raise ValueError at `clean_img` on any bold image that keeps some
      frame after smoothing. */
  lemma DefaultRequestFails(fs: FileSystem, nx: Numerics, filePath: string, sub: string, outDir: string, tr: real)
    requires RejectsEmptyConfounds(nx)
    requires ConfoundsFile(filePath, sub) in fs.tables && BoldFile(filePath, sub) in fs.images
    requires |nx.smooth(fs.images[BoldFile(filePath, sub)], Fwhm).frames| > 0
    ensures CleaningArgSpec(fs, nx, filePath, sub, outDir, tr, []) == Run([Smooth(BoldFile(filePath, sub), Fwhm)], Err(ValueError))
  {
    EmptyRequestStillPassesArray(fs, nx, filePath, sub, outDir, tr);
  }

  /** The output path is `out_dir + '/' + sub + '_cleaned.nii.gz'`; the file
      saved last is the cleaned image of the smoothed input. */
  lemma CleaningArgOutput(fs: FileSystem, nx: Numerics, filePath: string, sub: string, outDir: string,
                          tr: real, confList: seq<string>)
    requires CleaningArgSpec(fs, nx, filePath, sub, outDir, tr, confList).result.Ok?
    ensures var r := CleaningArgSpec(fs, nx, filePath, sub, outDir, tr, confList);
      BoldFile(filePath, sub) in fs.images &&
      r.result.value == outDir + "/" + sub + "_cleaned.nii.gz" &&
      nx.clean(nx.smooth(fs.images[BoldFile(filePath, sub)], Fwhm), r.steps[1].args).Some? &&
      r.steps[2] == SaveImage(r.result.value, nx.clean(nx.smooth(fs.images[BoldFile(filePath, sub)], Fwhm), r.steps[1].args).value)
  {
  }

  /** With its inputs read and its confounds resolved, `clean_img` rejects
      what the script hands it. */
  predicate ScriptCleanRejected(fs: FileSystem, nx: Numerics, filePath: string, sub: string, tr: real, confList: seq<string>) {
    ConfoundsFile(filePath, sub) in fs.tables && BoldFile(filePath, sub) in fs.images &&
    var resolved := Resolve(confList, fs.tables[ConfoundsFile(filePath, sub)], WithoutMeanFD);
    resolved.Ok? &&
    nx.clean(nx.smooth(fs.images[BoldFile(filePath, sub)], Fwhm), ScriptCleanArgs(filePath, sub, tr, resolved.value)).None?
  }

  /** The script fails exactly when its confounds file is missing, `aCompCor`
      is requested, its bold file is missing, or `clean_img` rejects its
      arguments, in that order of precedence. Only the last failure comes
      after a step, the smoothing. */
  lemma CleaningArgFailures(fs: FileSystem, nx: Numerics, filePath: string, sub: string, outDir: string,
                            tr: real, confList: seq<string>)
    ensures var r := CleaningArgSpec(fs, nx, filePath, sub, outDir, tr, confList);
      (r.result.Err? <==>
        ConfoundsFile(filePath, sub) !in fs.tables || "aCompCor" in confList || BoldFile(filePath, sub) !in fs.images ||
        ScriptCleanRejected(fs, nx, filePath, sub, tr, confList)) &&
      (r.result.Err? && !ScriptCleanRejected(fs, nx, filePath, sub, tr, confList) ==> r.steps == []) &&
      (ScriptCleanRejected(fs, nx, filePath, sub, tr, confList) ==>
        r == Run([Smooth(BoldFile(filePath, sub), Fwhm)], Err(ValueError))) &&
      (ConfoundsFile(filePath, sub) !in fs.tables ==> r.result == Err(FileNotFoundError(ConfoundsFile(filePath, sub)))) &&
      (ConfoundsFile(filePath, sub) in fs.tables && "aCompCor" in confList ==> r.result == Err(TypeError)) &&
      (ConfoundsFile(filePath, sub) in fs.tables && "aCompCor" !in confList && BoldFile(filePath, sub) !in fs.images ==>
        r.result == Err(ValueError))
  {
    if ConfoundsFile(filePath, sub) in fs.tables {
      RaisesIffACompCor(confList, fs.tables[ConfoundsFile(filePath, sub)], WithoutMeanFD);
    }
  }

  /** A mismatch at any position rules out an occurrence. */
  lemma MismatchRulesOut(s: string, sub: string, j: int, k: int)
    requires 0 <= j && 0 <= k < |sub| && j + k < |s| && s[j + k] != sub[k]
    ensures !OccursAt(s, sub, j)
  {
    if j + |sub| <= |s| {
      assert s[j..j + |sub|][k] == s[j + k];
    }
  }

  /** A basename `sub + ses + rest` whose first `_run-` opens `rest` has the
      key `sub + ses + rest[..6]`, provided neither `sub` nor `ses` after its
      leading '_' can start that tag. */
  lemma KeyAfterSession(filePath: string, sub: string, ses: string, rest: string)
    requires '/' !in sub && '_' !in sub
    requires '/' !in ses && '/' !in rest
    requires |ses| >= 2 && ses[0] == '_' && ses[1] != RunTag[1] && '_' !in ses[1..]
    requires |rest| > |RunTag| && rest[..|RunTag|] == RunTag && rest[|RunTag|] != '_'
    ensures ScanKey(filePath + "/" + (sub + ses + rest)) == Ok(sub + ses + rest[..|RunTag| + 1])
  {
    var name := sub + ses + rest;
    assert '/' !in name by {
      forall k | 0 <= k < |name| ensures name[k] != '/' {
        if k < |sub| { assert name[k] == sub[k]; }
        else if k < |sub| + |ses| { assert name[k] == ses[k - |sub|]; }
        else { assert name[k] == rest[k - |sub| - |ses|]; }
      }
    }
    BasenameOfJoin(filePath, name);
    var i := |sub| + |ses|;
    assert name[i..i + |RunTag|] == rest[..|RunTag|];
    forall j | 0 <= j < i ensures !OccursAt(name, RunTag, j) {
      if j < |sub| {
        assert name[j] == sub[j];
        MismatchRulesOut(name, RunTag, j, 0);
      } else if j == |sub| {
        assert name[j + 1] == ses[1];
        MismatchRulesOut(name, RunTag, j, 1);
      } else {
        assert name[j] == ses[j - |sub|] == ses[1..][j - |sub| - 1];
        MismatchRulesOut(name, RunTag, j, 0);
      }
    }
    OccursAtHead(name, RunTag, i + |RunTag|);
    assert name[i + |RunTag|] == rest[|RunTag|];
    KeyOfFirstRun(filePath + "/" + name, i);
    assert name[..i + |RunTag| + 1] == sub + ses + rest[..|RunTag| + 1];
  }

  /** For a subject name without '/' or '_', `get_info_list` gives the
      script's bold file the key `sub + '_ses-1_run-1'`, which the file's own
      path contains. */
  lemma BoldTemplateKey(filePath: string, sub: string)
    requires '/' !in sub && '_' !in sub
    ensures ScanKey(BoldFile(filePath, sub)) == Ok(sub + "_ses-1_run-1")
    ensures Contains(BoldFile(filePath, sub), sub + "_ses-1_run-1")
  {
    var ses, rest := "_ses-1", "_run-1_combined.nii.gz";
    BoldFileParts(filePath, sub, ses, rest);
    TemplateLiterals(ses, rest);
    KeyAfterSession(filePath, sub, ses, rest);
    KeyLiteral(sub, ses, rest);
    ScanKeyInOwnPath(BoldFile(filePath, sub));
  }

  lemma BoldFileParts(filePath: string, sub: string, ses: string, rest: string)
    requires ses == "_ses-1" && rest == "_run-1_combined.nii.gz"
    ensures BoldFile(filePath, sub) == filePath + "/" + (sub + ses + rest)
  {
  }

  lemma TemplateLiterals(ses: string, rest: string)
    requires ses == "_ses-1" && rest == "_run-1_combined.nii.gz"
    ensures '/' !in ses && '/' !in rest
    ensures |ses| >= 2 && ses[0] == '_' && ses[1] != RunTag[1] && '_' !in ses[1..]
    ensures |rest| > |RunTag| && rest[..|RunTag|] == RunTag && rest[|RunTag|] != '_'
  {
    assert rest[..5] == RunTag;
    assert ses[1..] == "ses-1";
  }

  lemma KeyLiteral(sub: string, ses: string, rest: string)
    requires ses == "_ses-1" && rest == "_run-1_combined.nii.gz"
    ensures sub + ses + rest[..|RunTag| + 1] == sub + "_ses-1_run-1"
  {
    assert rest[..6] == "_run-1";
  }
}
