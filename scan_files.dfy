/** Scan keys and file location (`get_info_list` and `find_scans` in
    conf_reg/utils.py, and their older copies in confound_regression.py). */
module ScanFiles {
  import opened Outcomes
  import opened PyStr

  const RunTag: string := "_run-"

  /** The key `get_info_list` derives from one path:
      `basename.split('_run-')[0] + '_run-' + basename.split('_run-')[1][0]`,
      where indexing a missing piece or an empty piece raises IndexError. */
  function ScanKey(file: string): Result<string> {
    var parts := Split(Basename(file), RunTag);
    if |parts| < 2 || parts[1] == [] then Err(IndexError)
    else Ok(parts[0] + RunTag + [parts[1][0]])
  }

  /** The basename has a "_run-" that is followed by a character which does
      not begin a second "_run-". */
  predicate HasRunChar(b: string) {
    match Find(b, RunTag)
    case None => false
    case Some(i) => i + |RunTag| < |b| && !OccursAt(b, RunTag, i + |RunTag|)
  }

  lemma OccursAtSuffix(s: string, sub: string, j: nat)
    requires j <= |s|
    ensures OccursAt(s, sub, j) <==> StartsWith(s[j..], sub)
  {
    if j + |sub| <= |s| { assert s[j..][..|sub|] == s[j..j + |sub|]; }
  }

  /** The key is the basename cut one character after its first "_run-";
      it exists exactly when that character exists and does not start a
      second "_run-" (otherwise the second piece of the split is empty). */
  lemma ScanKeyIsRunPrefix(file: string)
    ensures ScanKey(file).Ok? <==> HasRunChar(Basename(file))
    ensures ScanKey(file).Ok? ==>
      var b := Basename(file);
      ScanKey(file).value == b[..Find(b, RunTag).value + |RunTag| + 1]
    ensures ScanKey(file).Err? ==> ScanKey(file).error == IndexError
  {
    var b := Basename(file);
    match Find(b, RunTag)
    case None =>
      assert Split(b, RunTag) == [b];
    case Some(i) =>
      SecondPieceShape(b, RunTag, i);
      var parts := Split(b, RunTag);
      if parts[1] != [] {
        assert b[..i + |RunTag| + 1] == b[..i] + b[i..i + |RunTag|] + [b[i + |RunTag|]];
      }
  }

  /** After the first occurrence of `sep` at `i`, the second piece of the
      split is empty exactly when the text ends there or `sep` occurs again
      at once; otherwise it starts with the character after the separator. */
  lemma SecondPieceShape(b: string, sep: string, i: nat)
    requires sep != [] && Find(b, sep) == Some(i)
    ensures |Split(b, sep)| >= 2 && Split(b, sep)[0] == b[..i] && b[i..i + |sep|] == sep
    ensures Split(b, sep)[1] != [] <==> i + |sep| < |b| && !OccursAt(b, sep, i + |sep|)
    ensures Split(b, sep)[1] != [] ==> Split(b, sep)[1][0] == b[i + |sep|]
  {
    var rest := b[i + |sep|..];
    FindIsFirst(b, sep);
    SplitAtFirst(b, sep, i);
    var parts := Split(b, sep);
    assert parts[1] == Split(rest, sep)[0];
    FirstPieceEmpty(rest, sep);
    FirstPiecePrefix(rest, sep);
    OccursAtSuffix(b, sep, i + |sep|);
    if parts[1] != [] {
      assert parts[1][0] == rest[0];
    }
  }

  /** Whatever the basename of a path starts with occurs in the path. */
  lemma BasenamePrefixInPath(file: string, k: string)
    requires StartsWith(Basename(file), k)
    ensures Contains(file, k)
  {
    BasenameIsLastSegment(file);
    ContainsPrefixOfSuffix(file, |file| - |Basename(file)|, k);
  }

  /** A file's own key is a substring of its path, so searching its own list
      for that key always finds a file. */
  lemma ScanKeyInOwnPath(file: string)
    requires ScanKey(file).Ok?
    ensures Contains(file, ScanKey(file).value)
  {
    ScanKeyIsRunPrefix(file);
    var b := Basename(file);
    assert StartsWith(b, ScanKey(file).value);
    BasenamePrefixInPath(file, ScanKey(file).value);
  }

  /** Where the basename has its first "_run-" at `i`, followed by a
      character that does not start another "_run-", the key is the basename
      cut after that character. */
  lemma KeyOfFirstRun(file: string, i: nat)
    requires OccursAt(Basename(file), RunTag, i) && i + |RunTag| < |Basename(file)|
    requires forall j :: 0 <= j < i ==> !OccursAt(Basename(file), RunTag, j)
    requires !OccursAt(Basename(file), RunTag, i + |RunTag|)
    ensures ScanKey(file) == Ok(Basename(file)[..i + |RunTag| + 1])
  {
    var b := Basename(file);
    FindIsFirst(b, RunTag);
    assert Find(b, RunTag) == Some(i);
    ScanKeyIsRunPrefix(file);
  }

  /** No "_run-" starts before the first '_'. */
  lemma NoRunBeforeUnderscore(s: string, i: nat)
    requires i <= |s| && '_' !in s[..i]
    ensures forall j :: 0 <= j < i ==> !OccursAt(s, RunTag, j)
  {
    forall j | 0 <= j < i ensures !OccursAt(s, RunTag, j) {
      OccursAtHead(s, RunTag, j);
      assert s[j] == s[..i][j];
    }
  }

  /** Only one character of the run number is kept, so runs 1 and 10 of a
      subject get the same key, whatever follows the run number (such as
      `_bold.nii.gz`). */
  lemma RunTenSharesKeyWithRunOne(rest: string)
    requires '/' !in rest
    ensures ScanKey("sub-01_run-10" + rest) == Ok("sub-01_run-1")
    ensures ScanKey("sub-01_run-1" + rest) == Ok("sub-01_run-1")
  {
    var key, zero := "sub-01_run-1", "0";
    assert "sub-01_run-10" + rest == key + (zero + rest);
    assert '/' !in zero + rest;
    Sub01Literal(key + (zero + rest), zero + rest);
    Sub01Literal(key + rest, rest);
    KeyOfSub01(key + (zero + rest));
    KeyOfSub01(key + rest);
  }

  lemma Sub01Literal(file: string, rest: string)
    requires file == "sub-01_run-1" + rest && '/' !in rest
    ensures '/' !in file && |file| >= 12 && file[..12] == "sub-01_run-1"
  {
    var key := "sub-01_run-1";
    assert file[..12] == key;
    forall k | 0 <= k < |file| ensures file[k] != '/' {
      if k >= 12 {
        assert file[k] == rest[k - 12];
      }
    }
  }

  lemma KeyOfSub01(file: string)
    requires '/' !in file && |file| >= 12 && file[..12] == "sub-01_run-1"
    ensures ScanKey(file) == Ok("sub-01_run-1")
  {
    assert file[..6] == file[..12][..6] == "sub-01";
    assert file[6..11] == file[..12][6..11] == RunTag;
    assert file[11] == file[..12][11] == '1';
    OccursAtHead(file, RunTag, 11);
    BasenameWithoutSlash(file);
    NoRunBeforeUnderscore(file, 6);
    KeyOfFirstRun(file, 6);
  }

  /** `get_info_list`: the key of every file, in order; the first file
      without a usable "_run-" raises IndexError. */
  method GetInfoList(fileList: seq<string>) returns (r: Result<seq<string>>)
    ensures r.Ok? <==> forall k :: 0 <= k < |fileList| ==> ScanKey(fileList[k]).Ok?
    ensures r.Ok? ==> |r.value| == |fileList| &&
                      forall k :: 0 <= k < |fileList| ==> r.value[k] == ScanKey(fileList[k]).value
    ensures r.Err? ==> r.error == IndexError
  {
    var infoList: seq<string> := [];
    for k := 0 to |fileList|
      invariant |infoList| == k
      invariant forall j :: 0 <= j < k ==> ScanKey(fileList[j]).Ok? && infoList[j] == ScanKey(fileList[j]).value
    {
      var fileInfo := ScanKey(fileList[k]);
      if fileInfo.Err? {
        return Err(fileInfo.error);
      }
      infoList := infoList + [fileInfo.value];
    }
    return Ok(infoList);
  }

  /** Index of the first path containing `key` as a substring (`key in file`). */
  function FirstMatch(key: string, files: seq<string>): (r: Option<nat>)
    ensures r.Some? ==> r.value < |files| && Contains(files[r.value], key)
    ensures r.Some? ==> forall j :: 0 <= j < r.value ==> !Contains(files[j], key)
    ensures r.None? ==> forall j :: 0 <= j < |files| ==> !Contains(files[j], key)
  {
    if files == [] then None
    else if Contains(files[0], key) then Some(0)
    else match FirstMatch(key, files[1..])
      case None => None
      case Some(i) => Some(i + 1)
  }

  /** The path one search loop of `find_scans` leaves in its variable, or
      None when the loop never assigns it. */
  function Located(key: string, files: seq<string>): Option<string> {
    match FirstMatch(key, files)
    case None => None
    case Some(i) => Some(files[i])
  }

  /** The key derived from any file of a list finds a file of that list
      (the first one containing it, not necessarily the same file). */
  lemma OwnKeyIsLocated(files: seq<string>, k: nat)
    requires k < |files| && ScanKey(files[k]).Ok?
    ensures Located(ScanKey(files[k]).value, files).Some?
  {
    ScanKeyInOwnPath(files[k]);
  }

  /** One `for file in files: if scan_info in file: x = file; break` loop. */
  method SearchFirst(scanInfo: string, files: seq<string>) returns (found: Option<string>)
    ensures found == Located(scanInfo, files)
  {
    found := None;
    var k := 0;
    while k < |files|
      invariant 0 <= k <= |files|
      invariant found == None
      invariant forall j :: 0 <= j < k ==> !Contains(files[j], scanInfo)
    {
      if Contains(files[k], scanInfo) {
        found := Some(files[k]);
        break;
      }
      k := k + 1;
    }
  }

  /** The five files `find_scans` in conf_reg/utils.py returns. */
  datatype ScanFiles = ScanFiles(bold: string, brainMask: string, confounds: string, csfMask: string, fd: string)

  /** What `find_scans` returns: the first matching path of each list; when
      a list has no match its variable stays unbound and the `return`
      raises UnboundLocalError for the first such variable in tuple order. */
  function Locate(scanInfo: string, boldFiles: seq<string>, brainMaskFiles: seq<string>,
                  confoundsFiles: seq<string>, csfMaskFiles: seq<string>, fdFiles: seq<string>): Result<ScanFiles>
  {
    var bold := Located(scanInfo, boldFiles);
    var brainMask := Located(scanInfo, brainMaskFiles);
    var confounds := Located(scanInfo, confoundsFiles);
    var csfMask := Located(scanInfo, csfMaskFiles);
    var fd := Located(scanInfo, fdFiles);
    if bold.None? then Err(UnboundLocalError("bold_file"))
    else if brainMask.None? then Err(UnboundLocalError("brain_mask_file"))
    else if confounds.None? then Err(UnboundLocalError("confounds_file"))
    else if csfMask.None? then Err(UnboundLocalError("csf_mask"))
    else if fd.None? then Err(UnboundLocalError("FD_file"))
    else Ok(ScanFiles(bold.value, brainMask.value, confounds.value, csfMask.value, fd.value))
  }

  /** The first path of `files` that contains `key`. */
  predicate IsFirstMatch(key: string, files: seq<string>, path: string) {
    exists i :: 0 <= i < |files| && files[i] == path && Contains(path, key) &&
                forall j :: 0 <= j < i ==> !Contains(files[j], key)
  }

  /** A list in which no path contains the key. */
  predicate NoMatch(key: string, files: seq<string>) {
    forall j :: 0 <= j < |files| ==> !Contains(files[j], key)
  }

  lemma LocatedIsFirstMatch(key: string, files: seq<string>)
    ensures Located(key, files).None? <==> NoMatch(key, files)
    ensures Located(key, files).Some? ==> IsFirstMatch(key, files, Located(key, files).value)
  {
    if FirstMatch(key, files).Some? {
      var i := FirstMatch(key, files).value;
      assert files[i] == Located(key, files).value;
    }
  }

  /** Locate succeeds exactly when every list holds a path containing the
      key; it then returns the first such path of each list, and otherwise
      names the first unbound variable. */
  lemma LocateFindsFirstMatches(scanInfo: string, boldFiles: seq<string>, brainMaskFiles: seq<string>,
                                confoundsFiles: seq<string>, csfMaskFiles: seq<string>, fdFiles: seq<string>)
    ensures var r := Locate(scanInfo, boldFiles, brainMaskFiles, confoundsFiles, csfMaskFiles, fdFiles);
      (r.Ok? <==> !NoMatch(scanInfo, boldFiles) && !NoMatch(scanInfo, brainMaskFiles) &&
                  !NoMatch(scanInfo, confoundsFiles) && !NoMatch(scanInfo, csfMaskFiles) &&
                  !NoMatch(scanInfo, fdFiles)) &&
      (r.Ok? ==> IsFirstMatch(scanInfo, boldFiles, r.value.bold) &&
                 IsFirstMatch(scanInfo, brainMaskFiles, r.value.brainMask) &&
                 IsFirstMatch(scanInfo, confoundsFiles, r.value.confounds) &&
                 IsFirstMatch(scanInfo, csfMaskFiles, r.value.csfMask) &&
                 IsFirstMatch(scanInfo, fdFiles, r.value.fd)) &&
      (NoMatch(scanInfo, boldFiles) ==> r == Err(UnboundLocalError("bold_file")))
  {
    LocatedIsFirstMatch(scanInfo, boldFiles);
    LocatedIsFirstMatch(scanInfo, brainMaskFiles);
    LocatedIsFirstMatch(scanInfo, confoundsFiles);
    LocatedIsFirstMatch(scanInfo, csfMaskFiles);
    LocatedIsFirstMatch(scanInfo, fdFiles);
  }

  /** `find_scans` of conf_reg/utils.py: five search loops, then the return. */
  method FindScans(scanInfo: string, boldFiles: seq<string>, brainMaskFiles: seq<string>,
                   confoundsFiles: seq<string>, csfMaskFiles: seq<string>, fdFiles: seq<string>)
    returns (r: Result<ScanFiles>)
    ensures r == Locate(scanInfo, boldFiles, brainMaskFiles, confoundsFiles, csfMaskFiles, fdFiles)
  {
    var boldFile := SearchFirst(scanInfo, boldFiles);
    var brainMaskFile := SearchFirst(scanInfo, brainMaskFiles);
    var confoundsFile := SearchFirst(scanInfo, confoundsFiles);
    var csfMask := SearchFirst(scanInfo, csfMaskFiles);
    var fdFile := SearchFirst(scanInfo, fdFiles);
    if boldFile.None? { return Err(UnboundLocalError("bold_file")); }
    if brainMaskFile.None? { return Err(UnboundLocalError("brain_mask_file")); }
    if confoundsFile.None? { return Err(UnboundLocalError("confounds_file")); }
    if csfMask.None? { return Err(UnboundLocalError("csf_mask")); }
    if fdFile.None? { return Err(UnboundLocalError("FD_file")); }
    return Ok(ScanFiles(boldFile.value, brainMaskFile.value, confoundsFile.value, csfMask.value, fdFile.value));
  }

  /** The four files the older `find_scans` of confound_regression.py returns. */
  datatype LegacyScanFiles = LegacyScanFiles(bold: string, brainMask: string, confounds: string, csfMask: string)

  /** What the older `find_scans` returns: the same search without the
      framewise-displacement list. */
  function LocateLegacy(scanInfo: string, boldFiles: seq<string>, brainMaskFiles: seq<string>,
                        confoundsFiles: seq<string>, csfMaskFiles: seq<string>): Result<LegacyScanFiles>
  {
    var bold := Located(scanInfo, boldFiles);
    var brainMask := Located(scanInfo, brainMaskFiles);
    var confounds := Located(scanInfo, confoundsFiles);
    var csfMask := Located(scanInfo, csfMaskFiles);
    if bold.None? then Err(UnboundLocalError("bold_file"))
    else if brainMask.None? then Err(UnboundLocalError("brain_mask_file"))
    else if confounds.None? then Err(UnboundLocalError("confounds_file"))
    else if csfMask.None? then Err(UnboundLocalError("csf_mask"))
    else Ok(LegacyScanFiles(bold.value, brainMask.value, confounds.value, csfMask.value))
  }

  /** The older search is the newer one without its fifth list: it succeeds
      whenever the newer one does, with the same four paths, and it fails
      with the same error whenever one of the four lists has no match. */
  lemma LegacyLocateIsPrefixOfLocate(scanInfo: string, boldFiles: seq<string>, brainMaskFiles: seq<string>,
                                     confoundsFiles: seq<string>, csfMaskFiles: seq<string>, fdFiles: seq<string>)
    ensures var r := Locate(scanInfo, boldFiles, brainMaskFiles, confoundsFiles, csfMaskFiles, fdFiles);
            var l := LocateLegacy(scanInfo, boldFiles, brainMaskFiles, confoundsFiles, csfMaskFiles);
      (r.Ok? ==> l == Ok(LegacyScanFiles(r.value.bold, r.value.brainMask, r.value.confounds, r.value.csfMask))) &&
      (l.Err? ==> r == Err(l.error)) &&
      (l.Ok? && r.Err? ==> NoMatch(scanInfo, fdFiles) && r.error == UnboundLocalError("FD_file"))
  {
    LocatedIsFirstMatch(scanInfo, fdFiles);
  }

  /** The older `find_scans` (nested in `regress` of confound_regression.py). */
  method FindScansLegacy(scanInfo: string, boldFiles: seq<string>, brainMaskFiles: seq<string>,
                         confoundsFiles: seq<string>, csfMaskFiles: seq<string>)
    returns (r: Result<LegacyScanFiles>)
    ensures r == LocateLegacy(scanInfo, boldFiles, brainMaskFiles, confoundsFiles, csfMaskFiles)
  {
    var boldFile := SearchFirst(scanInfo, boldFiles);
    var brainMaskFile := SearchFirst(scanInfo, brainMaskFiles);
    var confoundsFile := SearchFirst(scanInfo, confoundsFiles);
    var csfMask := SearchFirst(scanInfo, csfMaskFiles);
    if boldFile.None? { return Err(UnboundLocalError("bold_file")); }
    if brainMaskFile.None? { return Err(UnboundLocalError("brain_mask_file")); }
    if confoundsFile.None? { return Err(UnboundLocalError("confounds_file")); }
    if csfMask.None? { return Err(UnboundLocalError("csf_mask")); }
    return Ok(LegacyScanFiles(boldFile.value, brainMaskFile.value, confoundsFile.value, csfMask.value));
  }
}
