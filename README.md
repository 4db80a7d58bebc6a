# conf_reg_pkg confound regression, modelled in Dafny

conf_reg_pkg cleans preprocessed rodent fMRI scans. It works one scan at a time:

1. It derives a scan key (`sub-01_ses-1_run-1`) from each bold file name.
2. It finds that scan's bold, brain-mask, confounds, CSF-mask and framewise-displacement files by substring search.
3. It turns the requested confound names (`mot_6`, `mot_24`, `aCompCor`, `mean_FD`, or a literal column name) into confound columns.
4. It smooths the bold image.
5. Optionally, it runs ICA-AROMA on the smoothed image. A six-column `.par` motion file is written for that run.
6. It calls nilearn's `clean_img`.
7. Optionally, it scrubs high-motion frames.
8. It saves the result as `<out_dir>/<scan>_cleaned.nii.gz`.

The project models four sources:

- the current pipeline (`conf_reg/utils.py`);
- the older copy of the pipeline (`confound_regression.py`);
- the one-scan script `cleaning_arg.py`;
- the argument checks and preparation of the bundled ICA-AROMA script (`conf_reg/mod_ICA_AROMA/ICA_AROMA.py`).

Modules:

- `Outcomes`: `Option`, and `Result` over the Python exceptions the code can raise.
- `PyStr`: `str.find`, the `in` test, `str.split`, `os.path.basename` and `os.path.join`.
- `Data`:
  - a CSV table as an ordered list of named columns, with pandas `.get` (None when the column is missing) and `df[name]` (KeyError);
  - an image (frames, affine, header);
  - the readable files, as a map from path to content.
- `ScanFiles`: `get_info_list` and both copies of `find_scans`.
- `Confounds`:
  - confound resolution, as one specification `Resolve` with an imperative method proved equal to it. A `Dialect` says whether the `mean_FD` branch exists.
  - both `csv2par` variants.
- `Scrubbing`:
  - the frame mask, built in an array by the same loop of slice assignments as the source;
  - the frame selection.
- `Regress`: both `regress` functions. nilearn's `smooth_img`, `clean_img` (which may reject its arguments) and the ICA-AROMA output (possibly absent) are uninterpreted functions (`Numerics`). A run records the ordered list of completed outside calls and file writes (`Step`), plus its returned path or exception.
- `CleaningArg`: `cleaning_arg.py`.
- `IcaAroma`: `ICA_AROMA.py` lines 51-128 and 165-167. It has a specification `Prepare` on a disk value (a set of files and a set of directories), and a class `Host` whose fields are the disk. `Host`'s methods perform the script's statements in order and are proved to match `Prepare`.

The model follows the code where it differs from the code's own comments and help texts:

- Scrubbing zeroes `mask[i-1:i+2]`, the frame itself and one on each side (utils.py:83). The docstring promises one back and two forward. With Python's slice clamping:
  - for frame 0 the slice is `mask[-1:2]`;
  - on three or more frames that slice is empty, so an exceedance at frame 0 masks nothing.

  See `Scrubbing.FirstFrameWindow` and `Scrubbing.FirstFrameExceedanceMasksNothing`.
- `aCompCor` is listed as an option in cleaning_arg.py:24. Yet `'...' + len(keys) + '...'` raises TypeError before any column is added, so every request naming it fails (utils.py:110).
- The scan key keeps one character after `_run-`, so runs 1 and 10 of a subject share the key `..._run-1`.
- The older `csv2par` cuts the whole path at its first '.' (confound_regression.py:131). A dotted directory name therefore truncates the output path.

## Model

| member | source | states |
|---|---|---|
| PyStr.FindIsFirst | conf_reg/utils.py:17 | `find` returns the first occurrence of the separator; None means it occurs nowhere |
| PyStr.SplitAtFirst | conf_reg/utils.py:17 | `split(sep)[0]` is the text before the first separator; the remaining pieces split the text after it |
| PyStr.FirstPieceShape | conf_reg/utils.py:17 | the first piece is a separator-free prefix, followed by the separator whenever it is shorter than the text |
| PyStr.SplitJoin | conf_reg/utils.py:17 | joining the pieces with the separator gives back the original text |
| PyStr.SplitPiecesFree | conf_reg/utils.py:17 | no piece of a split contains the separator |
| PyStr.BasenameIsLastSegment | conf_reg/utils.py:16 | `basename` is the slash-free tail of the path, preceded by '/' whenever it is shorter than the path |
| PyStr.Head | conf_reg/utils.py:66 | a path is its directory part (empty or ending in '/') followed by its basename |
| PyStr.BasenameOfPathJoin | conf_reg/utils.py:66 | joining a slash-free name onto a directory keeps that name as the basename |
| PyStr.ContainsIff | conf_reg/utils.py:25 | the `in` test holds exactly when the key occurs at some position |
| Data.Get | conf_reg/utils.py:103 | `.get` is None exactly when no column has the name |
| Data.GetFirst | conf_reg/utils.py:103 | a column `.get` finds is the first one with that name |
| Data.GetPresent | conf_reg/utils.py:103 | `.get` finds a column exactly when the name is among the keys |
| Data.Index | conf_reg/utils.py:60-65 | `df[name]` raises KeyError(name) exactly when the name is missing, and otherwise agrees with `.get` |
| ScanFiles.ScanKeyIsRunPrefix | conf_reg/utils.py:16-17 | the key exists exactly when the basename has a character after its first `_run-`. It is the basename up to and including that character. Otherwise the call raises IndexError |
| ScanFiles.ScanKeyInOwnPath | conf_reg/utils.py:16-25 | a file's key is a substring of the file's path, so the search finds it |
| ScanFiles.KeyOfFirstRun | conf_reg/utils.py:17 | when `_run-` first occurs at position i and is followed by a character that does not start another `_run-`, the key is the basename's first i+6 characters |
| ScanFiles.RunTenSharesKeyWithRunOne | conf_reg/utils.py:17 | whatever slash-free text follows the run number (`_bold.nii.gz`, say), `sub-01_run-10…` and `sub-01_run-1…` both get the key `sub-01_run-1` |
| ScanFiles.GetInfoList | conf_reg/utils.py:13-20 | the loop keeps length and order, each entry is the file's key, and a file without a key raises IndexError |
| ScanFiles.FirstMatch | conf_reg/utils.py:24-27 | the index found is the first file containing the key; None means no file contains it |
| ScanFiles.OwnKeyIsLocated | conf_reg/utils.py:24-27 | searching a list for the key of one of its own files always finds a file |
| ScanFiles.SearchFirst | conf_reg/utils.py:24-27 | the loop with `break` returns the first file that contains the key |
| ScanFiles.LocatedIsFirstMatch | conf_reg/utils.py:24-27 | the search finds nothing exactly when no file matches; a found file contains the key and no earlier file does |
| ScanFiles.LocateFindsFirstMatches | conf_reg/utils.py:23-44 | the five look-ups succeed exactly when every list has a match. Each returned path is its list's first match. A bold list without a match raises UnboundLocalError('bold_file') |
| ScanFiles.FindScans | conf_reg/utils.py:23-44 | the five search loops compute `Locate` |
| ScanFiles.LegacyLocateIsPrefixOfLocate | confound_regression.py:92-109 | the older four-list search finds the same four files as the current one. It fails with the same error, or succeeds where the current one lacks only an FD file |
| ScanFiles.FindScansLegacy | confound_regression.py:92-109 | the four search loops compute `LocateLegacy` |
| Confounds.MotionKeysMembers | conf_reg/utils.py:105 | `mot_24` keeps exactly the keys containing "rot" or "mov" |
| Confounds.MotionKeysConcat | conf_reg/utils.py:105 | the filter keeps key order: filtering a concatenation concatenates the filtered parts |
| Confounds.MotionSixAreMotionKeys | conf_reg/utils.py:101-105 | every `mot_6` name present in the table is also selected by `mot_24` |
| Confounds.ResolveOneFails | conf_reg/utils.py:99-117 | a single request fails exactly when it is `aCompCor`, or `mean_FD` with an unreadable FD file. `aCompCor` raises TypeError |
| Confounds.ResolveSnoc | conf_reg/utils.py:99-117 | one more request appends its columns, or raises its error, after the earlier requests |
| Confounds.ResolveConcat | conf_reg/utils.py:99-117 | resolving two request lists one after the other concatenates their columns. The first error wins |
| Confounds.ResolveFailsIff | conf_reg/utils.py:99-117 | resolution fails exactly when some request fails, and it raises the error of the first failing request |
| Confounds.ACompCorAlwaysRaises | conf_reg/utils.py:108-110 | any request list naming `aCompCor` raises |
| Confounds.RaisesIffACompCor | conf_reg/utils.py:108-110 | with a readable FD file, resolution raises exactly when `aCompCor` is requested, and the error is TypeError |
| Confounds.ResolvedEmptyIff | conf_reg/utils.py:98-117 | the resolved list is empty exactly when every request is `mot_24` and the table has no motion key |
| Confounds.DialectsAgreeWithoutMeanFD | confound_regression.py:140-155 | without a `mean_FD` request, the older loop and the current loop give the same result |
| Confounds.MeanFDReadsDisplacement | conf_reg/utils.py:113-115 | `mean_FD` adds the FD file's `Mean` column (None when absent). An unreadable FD file raises |
| Confounds.LiteralNameLookup | conf_reg/utils.py:116-117 | any other name adds one entry, None exactly when no such column exists, else that column |
| Confounds.MotionSixBlock | conf_reg/utils.py:100-103 | `mot_6` adds six entries, `.get` of mov1..mov3, rot1..rot3 in that order |
| Confounds.MotionTwentyFourBlock | conf_reg/utils.py:104-107 | `mot_24` adds every motion-named column in key order, none of them None |
| Confounds.AppendGets | conf_reg/utils.py:102-103 | the inner loop appends one `.get` per key |
| Confounds.AppendRequest | conf_reg/utils.py:100-117 | the if-chain appends the request's columns or raises its error |
| Confounds.ResolveConfounds | conf_reg/utils.py:98-117 | the loop over `conf_list` computes `Resolve` |
| Confounds.IndexAllSpec | conf_reg/utils.py:60-65 | `df[...]` on a list of names succeeds exactly when all are present, giving the columns in order; otherwise KeyError names the first missing one |
| Confounds.ParNameShape | conf_reg/utils.py:66 | the `.par` name is the basename up to its first '.', plus `.par`, with no '/' in it |
| Confounds.Csv2ParSpec | conf_reg/utils.py:56-68 | `csv2par` succeeds exactly when the table exists and has the six motion columns. It writes them in order to a file named by `ParName`; a missing file raises FileNotFoundError |
| Confounds.LegacyParPathInSameDirectory | confound_regression.py:131 | without a '.' in the directory part, the older `.par` path is the directory plus the current name |
| Confounds.LegacyParPathCutsDottedDirectory | confound_regression.py:131 | for a path `dir1.dir2/name` with no '.' in `dir1`, the older rule writes `dir1.par`, cutting inside the directory part, while the current rule names the stem of `name` plus `.par` |
| Scrubbing.InSliceIsPythonSlice | conf_reg/utils.py:83 | a position j of a length-n mask lies in `mask[lo:hi]` exactly when 0 <= j < n and j is at or after `lo` and before `hi`, where a negative bound is compared with j - n |
| Scrubbing.ZeroSlice | conf_reg/utils.py:83 | `mask[lo:hi] = 0` clears exactly the clamped slice and keeps every other entry |
| Scrubbing.ScrubMask | conf_reg/utils.py:79-83 | the loop over frames computes `MaskOf`: a frame is kept unless it falls in the clamped slice of some exceeding frame |
| Scrubbing.FirstFrameWindow | conf_reg/utils.py:83 | for frame 0 the slice `mask[-1:2]` is empty on three or more frames. It covers only the last frame on one or two |
| Scrubbing.LaterFrameWindow | conf_reg/utils.py:83 | for a later frame i the slice covers i-1, i and i+1 (cut at the end) |
| Scrubbing.ThresholdMonotone | conf_reg/utils.py:79-83 | raising the threshold never removes a kept frame |
| Scrubbing.SingleExceedance | conf_reg/utils.py:79-83 | one exceeding interior frame removes itself and one frame on each side, but not the frame two ahead |
| Scrubbing.FirstFrameExceedanceMasksNothing | conf_reg/utils.py:79-83 | when only frame 0 exceeds, no frame is removed |
| Scrubbing.SixFrameExampleAllMasked | conf_reg/utils.py:79-83 | exceedances at frames 1 and 4 of six remove all six frames |
| Scrubbing.KeptIndicesCount | conf_reg/utils.py:84 | as many frames are kept as the mask has true entries |
| Scrubbing.KeptIndicesIncreasing | conf_reg/utils.py:84 | kept frames stay in order and within range |
| Scrubbing.KeptIndicesMembers | conf_reg/utils.py:84 | a frame is kept exactly when its mask entry is true |
| Scrubbing.SelectIsKeptFrames | conf_reg/utils.py:84 | boolean indexing yields the kept frames, in order |
| Scrubbing.ScrubbedSpec | conf_reg/utils.py:78-85 | scrubbing succeeds exactly when the FD table is readable and has a `Mean` column as long as the image. It keeps affine and header and selects the kept frames. No `Mean` column raises TypeError; a read failure propagates |
| Scrubbing.Scrub | conf_reg/utils.py:70-85 | `scrubbing` reads the FD file and computes `Scrubbed` |
| Regress.FinishShape | conf_reg/utils.py:129-138 | after the earlier steps come the clean call, then the scrub step when enabled, then the save of the final image. The run returns `out_dir/<scan>_cleaned.nii.gz`. A rejected clean call raises ValueError with no further step |
| Regress.RejectedCleanRaises | conf_reg/utils.py:129-133 | a run that reaches `clean_img` and has its arguments rejected raises ValueError after the smoothing (and AROMA) steps, saving nothing |
| Regress.PreparedSpec | conf_reg/utils.py:124-128 | before cleaning, a run smooths, then with AROMA saves the smoothed image, writes the `.par` file and runs ICA-AROMA |
| Regress.RunFromShape | conf_reg/utils.py:124-138 | a successful run makes the calls smooth, [save, par, AROMA], clean, [scrub], save, in that order. The last one saves to the returned path |
| Regress.CleanStepArguments | conf_reg/utils.py:129-133 | `clean_img` is called with detrend, standardize, the given filters, TR and brain mask. Its confounds are the resolved columns, or None when there are none |
| Regress.MissingInputStopsRegress | conf_reg/utils.py:96-124 | a missing confounds file makes `read_csv` raise FileNotFoundError before any step. A missing bold file makes `smooth_img` raise ValueError ("File not found") once the confounds resolve, also before any step |
| Regress.ResolveFailureStopsEarly | conf_reg/utils.py:96-117 | a failing confound request raises before any image is smoothed or written |
| Regress.ACompCorStopsRegress | conf_reg/utils.py:108-110 | with readable inputs, requesting `aCompCor` ends the run with TypeError and no steps |
| Regress.SavedFrameCount | conf_reg/utils.py:134-137 | when cleaning keeps the frame count, the saved image has the bold file's frame count. With scrubbing it has the mask's kept-frame count instead |
| Regress.AromaSteps | conf_reg/utils.py:125-128 | the AROMA branch saves to `<out_dir>/<scan>_smoothed.nii.gz` made absolute. It writes the `.par` file, then calls ICA-AROMA with the absolute paths, the TR and, in the current copy, `-dim` |
| Regress.LegacyAgreesWithCurrent | confound_regression.py:136-174 | without AROMA, scrubbing or `mean_FD`, and with an FD file present, the older `regress` does exactly what the current one does |
| Regress.UnfoundScanStopsRegress | conf_reg/utils.py:95 | a scan key found in no bold file raises UnboundLocalError('bold_file') in both copies |
| Regress.RunAromaBranch | conf_reg/utils.py:125-128 | the AROMA statements compute `AromaStage` |
| Regress.AromaStageSteps | conf_reg/utils.py:45-54 | a completed AROMA stage saves the smoothed file, writes the `.par` file and runs ICA-AROMA on their absolute paths. The image then cleaned is the one found at the denoised output path |
| Regress.MissingAromaOutputRaises | conf_reg/utils.py:125-133 | the exit status of ICA-AROMA is ignored. When the run leaves no denoised output file, `clean_img` raises ValueError, after the four steps up to the AROMA call and before any cleaning or saving |
| Regress.CleanAndSave | conf_reg/utils.py:129-138 | the clean, scrub and save statements compute `Finish` |
| Regress.RunPipeline | conf_reg/utils.py:96-138 | the statements after the scan search compute `RunFrom` |
| Regress.Regress | conf_reg/utils.py:87-138 | `regress` computes `RegressSpec` |
| Regress.LegacyRegress | confound_regression.py:86-174 | the older `regress` computes `LegacyRegressSpec` |
| CleaningArg.CleaningArgScript | cleaning_arg.py:36-70 | the script's statements compute `CleaningArgSpec` |
| CleaningArg.ConfoundsAlwaysPassed | cleaning_arg.py:64-68 | the script smooths at 0.3 and high-passes at 0.01 with no low-pass. It always hands `clean_img` the resolved array, with its TR and brain mask |
| CleaningArg.EmptyRequestStillPassesArray | cleaning_arg.py:64-68 | with no request the script still calls `clean_img`, with an empty array where `regress` passes None. It returns the output path exactly when `clean_img` accepts that, and otherwise raises ValueError after smoothing |
| CleaningArg.DefaultRequestFails | cleaning_arg.py:22-68 | if `clean_img` rejects an empty confound array for an image with frames, the default `--conf_list` of `[]` makes the script raise ValueError after smoothing |
| CleaningArg.CleaningArgOutput | cleaning_arg.py:67-70 | the script returns `out_dir/<sub>_cleaned.nii.gz` and saves the cleaned smoothed bold image there |
| CleaningArg.CleaningArgFailures | cleaning_arg.py:40-68 | the script fails exactly when the confounds file is missing, `aCompCor` is requested, the bold file is missing, or `clean_img` rejects its arguments. These raise, in that order of precedence, FileNotFoundError, TypeError, ValueError ("File not found" from `smooth_img`) and ValueError. Only the last failure comes after a step, the smoothing |
| CleaningArg.BoldTemplateKey | cleaning_arg.py:36 | for a subject name without '/' or '_', the templated bold file gets the key `<sub>_ses-1_run-1`, and its path contains that key |
| IcaAroma.NormalizeDenType | conf_reg/mod_ICA_AROMA/ICA_AROMA.py:85-87 | the denoising type is always one of nonaggr, aggr, both, no |
| IcaAroma.NormalizeDenTypeKeepsValid | conf_reg/mod_ICA_AROMA/ICA_AROMA.py:85-87 | a valid type is kept exactly when it is one of the four; any other becomes nonaggr |
| IcaAroma.NormalizeDenTypeIdempotent | conf_reg/mod_ICA_AROMA/ICA_AROMA.py:85-87 | normalising twice is normalising once |
| IcaAroma.CancelIff | conf_reg/mod_ICA_AROMA/ICA_AROMA.py:51-92 | the run is canceled exactly when a specified input, mc or mask file is missing. An input or mc file that is not given does not cancel. Canceling touches nothing |
| IcaAroma.MissingFslDirRaises | conf_reg/mod_ICA_AROMA/ICA_AROMA.py:97 | without FSLDIR an uncanceled run raises KeyError('FSLDIR') before touching the output directory |
| IcaAroma.OutputExistsIff | conf_reg/mod_ICA_AROMA/ICA_AROMA.py:100-104 | the run stops on an existing output directory exactly when overwrite is off, leaving the disk alone. With overwrite on it never stops there |
| IcaAroma.OutputDirectoryReady | conf_reg/mod_ICA_AROMA/ICA_AROMA.py:100-128 | once the directory step succeeds, the output directory exists and nothing outside it is removed. The run then ends with a zero TR, a plan, or a TypeError, ValueError or mask FileNotFoundError. With overwrite, no old file under the directory survives; a prepared run leaves only the copied mask there |
| IcaAroma.LateOutcomesPastOutputStep | conf_reg/mod_ICA_AROMA/ICA_AROMA.py:100-124 | a zero-TR exit or a prepared plan happens only after the directory step |
| IcaAroma.TrChoice | conf_reg/mod_ICA_AROMA/ICA_AROMA.py:113-124 | the TR is the argument when truthy, else the header value. A prepared run never has TR 0, and the zero-TR exit comes after the output directory exists |
| IcaAroma.NoInputNoTrRaises | conf_reg/mod_ICA_AROMA/ICA_AROMA.py:113-119 | without a TR and without an input file the header read raises TypeError, after the output directory was created |
| IcaAroma.MaskRequired | conf_reg/mod_ICA_AROMA/ICA_AROMA.py:127-128 | a prepared run had an existing mask file, now copied to `<outDir>/mask.nii.gz`. The default empty mask always ends in an exception |
| IcaAroma.PlanSettings | conf_reg/mod_ICA_AROMA/ICA_AROMA.py:97 | the FSL directory is `$FSLDIR/bin/`, ending in '/', and a prepared run carries the normalised denoising type |
| IcaAroma.DenoiseIff | conf_reg/mod_ICA_AROMA/ICA_AROMA.py:165-167 | denoising runs, last, exactly when the type is not 'no', and only with nonaggr, aggr or both |
| IcaAroma.PreparedDenoising | conf_reg/mod_ICA_AROMA/ICA_AROMA.py:165-167 | 'no' skips denoising. Any other given type denoises with its normalised value, so an unknown one denoises as nonaggr |
| IcaAroma.Host.CancelFlag | conf_reg/mod_ICA_AROMA/ICA_AROMA.py:51-82 | the flag set step by step ends true exactly when `ShouldCancel` holds |
| IcaAroma.Host.RemoveTree | conf_reg/mod_ICA_AROMA/ICA_AROMA.py:107 | `rmtree` removes the directory and everything under it, and nothing else |
| IcaAroma.Host.MakeDirs | conf_reg/mod_ICA_AROMA/ICA_AROMA.py:108-110 | `makedirs` adds the directory. It raises FileExistsError on an existing path and FileNotFoundError on "", leaving the disk unchanged |
| IcaAroma.Host.CopyFile | conf_reg/mod_ICA_AROMA/ICA_AROMA.py:128 | `copyfile` adds the destination, or raises FileNotFoundError for a missing source, leaving the disk unchanged |
| IcaAroma.Host.TrAndMask | conf_reg/mod_ICA_AROMA/ICA_AROMA.py:113-128 | the TR statements and the mask copy compute `AfterOutputStep` on the disk |
| IcaAroma.Host.Run | conf_reg/mod_ICA_AROMA/ICA_AROMA.py:51-128 | the script's preparation computes `Prepare`: the outcome and the disk it leaves |

## Left out

- File contents and I/O are maps from path to table or image, and writes are recorded as steps. Disk errors other than a missing file are not modelled. A missing CSV raises FileNotFoundError (pandas), a missing image ValueError (nilearn). CSV parsing and NIfTI decoding are not modelled.
- nilearn's `smooth_img` and `clean_img` (detrending, standardising, filtering, regression) are uninterpreted functions. Only their arguments and their order are modelled. `smooth_img` on a loaded image is taken never to raise. `clean_img` may reject its arguments, always with ValueError.
- CleaningArg.CleaningArgFailures: which arguments `clean_img` rejects is not modelled. Examples are an empty confound array for an image with frames, or an object array built from a missing column's None. The lemma's last failure case is therefore the uninterpreted condition `ScriptCleanRejected`. The empty-array rule is stated only as the hypothesis `RejectsEmptyConfounds` of `DefaultRequestFails`; the same holds for `regress`.
- NumPy's `np.asarray` and transpose of the confound list are left out. A column `.get` could not find is recorded as None instead of being turned into an object array.
- Floating-point numbers are reals. FD values, thresholds, TR and smoothing widths carry no rounding, and a NaN FD value is not modelled.
- `os.path.abspath` is a join onto a given working directory, without `normpath` (no `..` or `//` collapsing).
- `tree_list` (`os.walk`) is not modelled: the file lists are inputs.
- `exec_ICA_AROMA`'s command string and `os.system` call are left out. The call is a record of its arguments. What `clean_img` then finds at the returned `denoised_func_data_nonaggr.nii.gz` path is an uninterpreted function of the call, None when no file is there. Because the exit status is ignored, that file may also be one left by an earlier run; the model does not tell a fresh output from a stale one.
- The argparse command lines, the nipype workflow of both pipeline scripts, `print` output and `os.chdir` are left out.
- In ICA_AROMA.py, everything from line 133 on apart from the denoising gate is left out: MELODIC, the masks, the features, the classification and its plots. These are external FSL and `ICA_AROMA_functions` routines.
- ICA_AROMA.py's `fslinfo` subprocess is left out. Its parsed output is the `headerTr` parameter, and None stands for unparsable output (ValueError).
- `os.environ` is a map parameter.
- IcaAroma: paths are compared as given. Relative paths resolving against the script directory after `os.chdir`, and symbolic links, are not modelled.
- IcaAroma.Host.MakeDirs: missing parent directories are not created.
- IcaAroma.Host.CopyFile: does not model copying onto a directory or onto the source itself.
- IcaAroma.Host.RemoveTree: does not model permission errors.
- csv2par.py at the top level repeats the six-column projection of `csv2par` with fixed file names; it is not part of this model.
- `tree_list` and the path-building statements of conf_reg/confound_regression.py are not part of this model.
