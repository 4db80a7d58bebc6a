/** Which confound time courses `regress` hands to the cleaning step, and the
    motion-parameter file `csv2par` writes for ICA-AROMA (conf_reg/utils.py,
    with the older copies in confound_regression.py and cleaning_arg.py). */
module Confounds {
  import opened Outcomes
  import opened PyStr
  import opened Data

  /** The fixed block `mot_6` asks for, also the columns of a `.par` file. */
  const MotionSix: seq<string> := ["mov1", "mov2", "mov3", "rot1", "rot2", "rot3"]

  /** A column name the `mot_24` filter keeps: `"rot" in s or "mov" in s`. */
  predicate IsMotionKey(s: string) {
    Contains(s, "rot") || Contains(s, "mov")
  }

  /** `[s for s in keys if "rot" in s or "mov" in s]` */
  function MotionKeys(keys: seq<string>): seq<string> {
    if keys == [] then []
    else (if IsMotionKey(keys[0]) then [keys[0]] else []) + MotionKeys(keys[1..])
  }

  /** The filter keeps exactly the motion names of `keys`. */
  lemma {:induction false} MotionKeysMembers(keys: seq<string>)
    ensures forall x :: x in MotionKeys(keys) <==> x in keys && IsMotionKey(x)
  {
    if keys != [] {
      MotionKeysMembers(keys[1..]);
      assert keys == [keys[0]] + keys[1..];
    }
  }

  /** The filter works name by name, so it keeps the table order. */
  lemma {:induction false} MotionKeysConcat(a: seq<string>, b: seq<string>)
    ensures MotionKeys(a + b) == MotionKeys(a) + MotionKeys(b)
  {
    if a != [] {
      assert (a + b)[1..] == a[1..] + b;
      MotionKeysConcat(a[1..], b);
    } else {
      assert a + b == b;
    }
  }

  /** Every name of the fixed six passes the `mot_24` filter, so whichever of
      them the table has, `mot_24` also selects. */
  lemma MotionSixAreMotionKeys(keys: seq<string>)
    ensures forall x :: x in MotionSix && x in keys ==> x in MotionKeys(keys)
  {
    MotionKeysMembers(keys);
    forall x | x in MotionSix ensures IsMotionKey(x) {
      var tag := if x[..3] == "mov" then "mov" else "rot";
      assert StartsWith(x, tag);
      ContainsPrefixOfSuffix(x, 0, tag);
    }
  }

  /** `confounds.get(name)` for each name, in order. */
  function Gets(t: Table, names: seq<string>): (cs: seq<Option<Column>>)
    ensures |cs| == |names| && forall k :: 0 <= k < |names| ==> cs[k] == Get(t, names[k])
  {
    seq(|names|, k requires 0 <= k < |names| => Get(t, names[k]))
  }

  /** The copies of the resolution loop differ only in whether `mean_FD` has a
      branch of its own: conf_reg/utils.py reads the displacement table there
      (the result of that read is `fd`); the older loops have no such branch. */
  datatype Dialect = WithMeanFD(fd: Result<Table>) | WithoutMeanFD

  /** The columns one request adds, or the exception its branch raises.
      `aCompCor` always raises: its message adds an int to a str. */
  function ResolveOne(conf: string, t: Table, d: Dialect): Result<seq<Option<Column>>> {
    if conf == "mot_6" then Ok(Gets(t, MotionSix))
    else if conf == "mot_24" then Ok(Gets(t, MotionKeys(Keys(t))))
    else if conf == "aCompCor" then Err(TypeError)
    else if conf == "mean_FD" && d.WithMeanFD? then
      if d.fd.Err? then Err(d.fd.error) else Ok([Get(d.fd.value, "Mean")])
    else Ok([Get(t, conf)])
  }

  /** The requests whose branch raises. */
  predicate Fails(conf: string, d: Dialect) {
    conf == "aCompCor" || (conf == "mean_FD" && d.WithMeanFD? && d.fd.Err?)
  }

  lemma ResolveOneFails(conf: string, t: Table, d: Dialect)
    ensures ResolveOne(conf, t, d).Err? <==> Fails(conf, d)
    ensures conf == "aCompCor" ==> ResolveOne(conf, t, d) == Err(TypeError)
  {
  }

  /** Appending the columns of a later step to those of an earlier one:
      the earlier exception wins, then the later one. */
  function Combine(x: Result<seq<Option<Column>>>, y: Result<seq<Option<Column>>>): Result<seq<Option<Column>>> {
    if x.Err? then x else if y.Err? then y else Ok(x.value + y.value)
  }

  lemma CombineAssoc(x: Result<seq<Option<Column>>>, y: Result<seq<Option<Column>>>, z: Result<seq<Option<Column>>>)
    ensures Combine(Combine(x, y), z) == Combine(x, Combine(y, z))
  {
    if x.Ok? && y.Ok? && z.Ok? {
      assert (x.value + y.value) + z.value == x.value + (y.value + z.value);
    }
  }

  /** `confounds_list` after the loop over `confs`: the columns of the
      requests in order, or the exception of the first request that raises. */
  function Resolve(confs: seq<string>, t: Table, d: Dialect): Result<seq<Option<Column>>>
    decreases |confs|
  {
    if confs == [] then Ok([])
    else Combine(Resolve(confs[..|confs| - 1], t, d), ResolveOne(confs[|confs| - 1], t, d))
  }

  lemma ResolveSnoc(confs: seq<string>, conf: string, t: Table, d: Dialect)
    ensures Resolve(confs + [conf], t, d) == Combine(Resolve(confs, t, d), ResolveOne(conf, t, d))
  {
    assert (confs + [conf])[..|confs|] == confs;
  }

  /** Resolution goes request by request: the columns of `a + b` are those of
      `a` followed by those of `b`, and an exception in `a` comes first. */
  lemma {:induction false} ResolveConcat(a: seq<string>, b: seq<string>, t: Table, d: Dialect)
    ensures Resolve(a + b, t, d) ==
      if Resolve(a, t, d).Err? then Resolve(a, t, d)
      else if Resolve(b, t, d).Err? then Resolve(b, t, d)
      else Ok(Resolve(a, t, d).value + Resolve(b, t, d).value)
    decreases |b|
  {
    if b == [] {
      assert a + b == a;
      if Resolve(a, t, d).Ok? {
        assert Resolve(a, t, d).value + [] == Resolve(a, t, d).value;
      }
    } else {
      var b' := b[..|b| - 1];
      var c := b[|b| - 1];
      assert a + b == (a + b') + [c];
      assert b == b' + [c];
      ResolveConcat(a, b', t, d);
      ResolveSnoc(a + b', c, t, d);
      ResolveSnoc(b', c, t, d);
      CombineAssoc(Resolve(a, t, d), Resolve(b', t, d), ResolveOne(c, t, d));
    }
  }

  /** The loop raises exactly when some request's branch raises, and then it
      raises the exception of the first such request. */
  lemma ResolveFailsIff(confs: seq<string>, t: Table, d: Dialect)
    ensures Resolve(confs, t, d).Err? <==> exists i :: 0 <= i < |confs| && Fails(confs[i], d)
    ensures Resolve(confs, t, d).Err? ==>
      exists i :: 0 <= i < |confs| && Fails(confs[i], d) &&
        (forall j :: 0 <= j < i ==> !Fails(confs[j], d)) &&
        Resolve(confs, t, d).error == ResolveOne(confs[i], t, d).error
  {
    ResolveErrIff(confs, t, d);
    ResolveFirstError(confs, t, d);
  }

  lemma {:induction false} ResolveErrIff(confs: seq<string>, t: Table, d: Dialect)
    ensures Resolve(confs, t, d).Err? <==> exists i :: 0 <= i < |confs| && Fails(confs[i], d)
    decreases |confs|
  {
    if confs != [] {
      var confs', c := confs[..|confs| - 1], confs[|confs| - 1];
      assert confs == confs' + [c];
      ResolveErrIff(confs', t, d);
      ResolveSnoc(confs', c, t, d);
      ResolveOneFails(c, t, d);
      if Resolve(confs', t, d).Err? {
        var i :| 0 <= i < |confs'| && Fails(confs'[i], d);
        assert confs[i] == confs'[i];
      } else if !Fails(c, d) {
        forall i | 0 <= i < |confs| ensures !Fails(confs[i], d) {
          if i < |confs'| {
            assert confs[i] == confs'[i];
          }
        }
      }
    }
  }

  lemma {:induction false} ResolveFirstError(confs: seq<string>, t: Table, d: Dialect)
    ensures Resolve(confs, t, d).Err? ==>
      exists i :: 0 <= i < |confs| && Fails(confs[i], d) &&
        (forall j :: 0 <= j < i ==> !Fails(confs[j], d)) &&
        Resolve(confs, t, d).error == ResolveOne(confs[i], t, d).error
    decreases |confs|
  {
    if confs != [] {
      var confs', c := confs[..|confs| - 1], confs[|confs| - 1];
      assert confs == confs' + [c];
      ResolveFirstError(confs', t, d);
      ResolveSnoc(confs', c, t, d);
      ResolveOneFails(c, t, d);
      if Resolve(confs', t, d).Err? {
        var i :| 0 <= i < |confs'| && Fails(confs'[i], d) &&
          (forall j :: 0 <= j < i ==> !Fails(confs'[j], d)) &&
          Resolve(confs', t, d).error == ResolveOne(confs'[i], t, d).error;
        assert forall j :: 0 <= j <= i ==> confs[j] == confs'[j];
      } else if ResolveOne(c, t, d).Err? {
        ResolveErrIff(confs', t, d);
        assert forall j :: 0 <= j < |confs'| ==> confs[j] == confs'[j];
        assert confs[|confs'|] == c;
      }
    }
  }

  /** Any request for `aCompCor` makes the loop raise. */
  lemma ACompCorAlwaysRaises(confs: seq<string>, t: Table, d: Dialect)
    requires "aCompCor" in confs
    ensures Resolve(confs, t, d).Err?
  {
    ResolveFailsIff(confs, t, d);
    var i :| 0 <= i < |confs| && confs[i] == "aCompCor";
    assert Fails(confs[i], d);
  }

  /** When the displacement table can be read, or the loop has no `mean_FD`
      branch, the loop raises exactly when `aCompCor` is requested, and the
      exception is the TypeError. */
  lemma RaisesIffACompCor(confs: seq<string>, t: Table, d: Dialect)
    requires d.WithoutMeanFD? || d.fd.Ok?
    ensures Resolve(confs, t, d).Err? <==> "aCompCor" in confs
    ensures Resolve(confs, t, d).Err? ==> Resolve(confs, t, d).error == TypeError
  {
    ResolveFailsIff(confs, t, d);
    if "aCompCor" in confs {
      var i :| 0 <= i < |confs| && confs[i] == "aCompCor";
      assert Fails(confs[i], d);
    }
    if Resolve(confs, t, d).Err? {
      var i :| 0 <= i < |confs| && Fails(confs[i], d) &&
        Resolve(confs, t, d).error == ResolveOne(confs[i], t, d).error;
      ResolveOneFails(confs[i], t, d);
    }
  }

  /** A single request adds no column only when it is `mot_24` on a table
      without motion keys. */
  lemma ResolveOneEmpty(conf: string, t: Table, d: Dialect)
    requires ResolveOne(conf, t, d).Ok?
    ensures ResolveOne(conf, t, d).value == [] <==> conf == "mot_24" && MotionKeys(Keys(t)) == []
  {
  }

  /** The list handed on is empty exactly when every request is `mot_24` and
      the table has no motion column (including when nothing was requested). */
  lemma {:induction false} ResolvedEmptyIff(confs: seq<string>, t: Table, d: Dialect)
    requires Resolve(confs, t, d).Ok?
    ensures Resolve(confs, t, d).value == [] <==>
      forall i :: 0 <= i < |confs| ==> confs[i] == "mot_24" && MotionKeys(Keys(t)) == []
    decreases |confs|
  {
    if confs != [] {
      var confs' := confs[..|confs| - 1];
      var c := confs[|confs| - 1];
      ResolveSnoc(confs', c, t, d);
      assert confs == confs' + [c];
      var before, one := Resolve(confs', t, d), ResolveOne(c, t, d);
      assert before.Ok? && one.Ok? && Resolve(confs, t, d).value == before.value + one.value;
      ResolvedEmptyIff(confs', t, d);
      ResolveOneEmpty(c, t, d);
      assert forall i :: 0 <= i < |confs'| ==> confs'[i] == confs[i];
    }
  }

  /** The older loops treat `mean_FD` as a column name; where it is not
      requested all copies resolve the same columns. */
  lemma {:induction false} DialectsAgreeWithoutMeanFD(confs: seq<string>, t: Table, fd: Result<Table>)
    requires "mean_FD" !in confs
    ensures Resolve(confs, t, WithMeanFD(fd)) == Resolve(confs, t, WithoutMeanFD)
    decreases |confs|
  {
    if confs != [] {
      var confs' := confs[..|confs| - 1];
      assert confs == confs' + [confs[|confs| - 1]];
      DialectsAgreeWithoutMeanFD(confs', t, fd);
    }
  }

  /** `mean_FD` in conf_reg/utils.py gives the `Mean` column of the
      displacement table, or the failure of reading that table. */
  lemma MeanFDReadsDisplacement(t: Table, fd: Result<Table>)
    ensures fd.Ok? ==> Resolve(["mean_FD"], t, WithMeanFD(fd)) == Ok([Get(fd.value, "Mean")])
    ensures fd.Err? ==> Resolve(["mean_FD"], t, WithMeanFD(fd)) == Err(fd.error)
  {
    assert ["mean_FD"][..0] == [];
    if fd.Ok? {
      assert [] + [Get(fd.value, "Mean")] == [Get(fd.value, "Mean")];
    }
  }

  /** Any other name is one `.get`: it always adds exactly one entry, None
      when the table lacks that column, and never raises. */
  lemma LiteralNameLookup(name: string, t: Table, d: Dialect)
    requires name != "mot_6" && name != "mot_24" && name != "aCompCor"
    requires name == "mean_FD" ==> d.WithoutMeanFD?
    ensures Resolve([name], t, d).Ok? && |Resolve([name], t, d).value| == 1
    ensures Resolve([name], t, d).value[0].None? <==> name !in Keys(t)
    ensures Resolve([name], t, d).value[0].Some? ==> Index(t, name) == Ok(Resolve([name], t, d).value[0].value)
  {
    assert [name][..0] == [];
    GetPresent(t, name);
  }

  /** `mot_6` adds six entries in the fixed order, each None when the table
      lacks that column. */
  lemma MotionSixBlock(t: Table, d: Dialect)
    ensures Resolve(["mot_6"], t, d).Ok? && |Resolve(["mot_6"], t, d).value| == 6
    ensures forall k :: 0 <= k < 6 ==> Resolve(["mot_6"], t, d).value[k] == Get(t, MotionSix[k])
  {
    assert ["mot_6"][..0] == [];
  }

  /** `mot_24` adds one present column per motion name, in table order. */
  lemma MotionTwentyFourBlock(t: Table, d: Dialect)
    ensures Resolve(["mot_24"], t, d).Ok?
    ensures Resolve(["mot_24"], t, d).value == Gets(t, MotionKeys(Keys(t)))
    ensures forall k :: 0 <= k < |Resolve(["mot_24"], t, d).value| ==> Resolve(["mot_24"], t, d).value[k].Some?
  {
    assert ["mot_24"][..0] == [];
    var ks := MotionKeys(Keys(t));
    MotionKeysMembers(Keys(t));
    forall k | 0 <= k < |ks| ensures Get(t, ks[k]).Some? {
      GetPresent(t, ks[k]);
    }
  }

  /** One `for mov in motion_keys: confounds_list.append(confounds.get(mov))` loop. */
  method AppendGets(confounds: Table, motionKeys: seq<string>, confoundsList: seq<Option<Column>>)
    returns (extended: seq<Option<Column>>)
    ensures extended == confoundsList + Gets(confounds, motionKeys)
  {
    extended := confoundsList;
    for j := 0 to |motionKeys|
      invariant extended == confoundsList + Gets(confounds, motionKeys[..j])
    {
      extended := extended + [Get(confounds, motionKeys[j])];
    }
    assert motionKeys[..|motionKeys|] == motionKeys;
  }

  /** The body of the resolution loop for one request: the list extended by
      that request's columns, or the exception its branch raises. */
  method AppendRequest(conf: string, confounds: Table, keys: seq<string>, d: Dialect,
                       confoundsList: seq<Option<Column>>)
    returns (r: Result<seq<Option<Column>>>)
    requires keys == Keys(confounds)
    ensures ResolveOne(conf, confounds, d).Err? ==> r == Err(ResolveOne(conf, confounds, d).error)
    ensures ResolveOne(conf, confounds, d).Ok? ==> r == Ok(confoundsList + ResolveOne(conf, confounds, d).value)
  {
    if conf == "mot_6" {
      var motionKeys := MotionSix;
      var extended := AppendGets(confounds, motionKeys, confoundsList);
      return Ok(extended);
    } else if conf == "mot_24" {
      var motionKeys := MotionKeys(keys);
      var extended := AppendGets(confounds, motionKeys, confoundsList);
      return Ok(extended);
    } else if conf == "aCompCor" {
      return Err(TypeError);
    } else if conf == "mean_FD" && d.WithMeanFD? {
      if d.fd.Err? {
        return Err(d.fd.error);
      }
      return Ok(confoundsList + [Get(d.fd.value, "Mean")]);
    } else {
      return Ok(confoundsList + [Get(confounds, conf)]);
    }
  }

  /** The resolution loop of conf_reg/utils.py (Dialect WithMeanFD) and of
      confound_regression.py and cleaning_arg.py (WithoutMeanFD). */
  method ResolveConfounds(confList: seq<string>, confounds: Table, d: Dialect)
    returns (r: Result<seq<Option<Column>>>)
    ensures r == Resolve(confList, confounds, d)
  {
    var keys := Keys(confounds);
    var confoundsList: seq<Option<Column>> := [];
    for k := 0 to |confList|
      invariant Resolve(confList[..k], confounds, d) == Ok(confoundsList)
    {
      var done, conf := confList[..k], confList[k];
      assert confList[..k + 1] == done + [conf];
      ResolveSnoc(done, conf, confounds, d);
      var step := AppendRequest(conf, confounds, keys, d, confoundsList);
      assert step == Combine(Ok(confoundsList), ResolveOne(conf, confounds, d));
      if step.Err? {
        var upto, rest := confList[..k + 1], confList[k + 1..];
        assert Resolve(upto, confounds, d) == step;
        assert confList == upto + rest;
        ResolveConcat(upto, rest, confounds, d);
        return Err(step.error);
      }
      confoundsList := step.value;
    }
    assert confList[..|confList|] == confList;
    return Ok(confoundsList);
  }

  /** `df[name]` for each name in order, raising KeyError at the first absent one. */
  function IndexAll(t: Table, names: seq<string>): Result<seq<Column>> {
    if names == [] then Ok([])
    else
      var c :- Index(t, names[0]);
      var rest :- IndexAll(t, names[1..]);
      Ok([c] + rest)
  }

  /** The columns are taken over by name; the copy fails exactly when a name
      is missing, and names the first missing one. */
  lemma IndexAllSpec(t: Table, names: seq<string>)
    ensures IndexAll(t, names).Ok? <==> forall k :: 0 <= k < |names| ==> names[k] in Keys(t)
    ensures IndexAll(t, names).Ok? ==>
      |IndexAll(t, names).value| == |names| &&
      forall k :: 0 <= k < |names| ==> Get(t, names[k]) == Some(IndexAll(t, names).value[k])
    ensures IndexAll(t, names).Err? ==>
      exists i :: 0 <= i < |names| && names[i] !in Keys(t) &&
        (forall j :: 0 <= j < i ==> names[j] in Keys(t)) && IndexAll(t, names).error == KeyError(names[i])
  {
    IndexAllColumns(t, names);
    IndexAllFirstMissing(t, names);
  }

  lemma IndexAllColumns(t: Table, names: seq<string>)
    ensures IndexAll(t, names).Ok? <==> forall k :: 0 <= k < |names| ==> names[k] in Keys(t)
    ensures IndexAll(t, names).Ok? ==>
      |IndexAll(t, names).value| == |names| &&
      forall k :: 0 <= k < |names| ==> Get(t, names[k]) == Some(IndexAll(t, names).value[k])
  {
    IndexAllOkIff(t, names);
    IndexAllValues(t, names);
  }

  lemma {:induction false} IndexAllOkIff(t: Table, names: seq<string>)
    ensures IndexAll(t, names).Ok? <==> forall k :: 0 <= k < |names| ==> names[k] in Keys(t)
  {
    if names != [] {
      IndexAllOkIff(t, names[1..]);
      if Index(t, names[0]).Ok? {
        if IndexAll(t, names[1..]).Ok? {
          forall k | 1 <= k < |names| ensures names[k] in Keys(t) {
            assert names[k] == names[1..][k - 1];
          }
        } else {
          var k :| 0 <= k < |names[1..]| && names[1..][k] !in Keys(t);
          assert names[k + 1] !in Keys(t);
        }
      }
    }
  }

  lemma {:induction false} IndexAllValues(t: Table, names: seq<string>)
    ensures IndexAll(t, names).Ok? ==>
      |IndexAll(t, names).value| == |names| &&
      forall k :: 0 <= k < |names| ==> Get(t, names[k]) == Some(IndexAll(t, names).value[k])
  {
    if names != [] {
      IndexAllValues(t, names[1..]);
      var head := Index(t, names[0]);
      var rest := IndexAll(t, names[1..]);
      if head.Ok? && rest.Ok? {
        var cols := [head.value] + rest.value;
        assert IndexAll(t, names) == Ok(cols);
        forall k | 1 <= k < |names| ensures Get(t, names[k]) == Some(cols[k]) {
          assert names[k] == names[1..][k - 1];
        }
      }
    }
  }

  lemma {:induction false} IndexAllFirstMissing(t: Table, names: seq<string>)
    ensures IndexAll(t, names).Err? ==>
      exists i :: 0 <= i < |names| && names[i] !in Keys(t) &&
        (forall j :: 0 <= j < i ==> names[j] in Keys(t)) && IndexAll(t, names).error == KeyError(names[i])
  {
    if names != [] {
      IndexAllFirstMissing(t, names[1..]);
      if Index(t, names[0]).Err? {
        assert names[0] !in Keys(t);
      } else if IndexAll(t, names[1..]).Err? {
        var i :| 0 <= i < |names[1..]| && names[1..][i] !in Keys(t) &&
          (forall j :: 0 <= j < i ==> names[1..][j] in Keys(t)) && IndexAll(t, names[1..]).error == KeyError(names[1..][i]);
        assert names[i + 1] !in Keys(t);
        assert forall j :: 1 <= j < i + 1 ==> names[j] == names[1..][j - 1];
      }
    }
  }

  /** The six motion columns of the confounds table, in `.par` order. */
  function ParColumns(t: Table): Result<seq<Column>> {
    IndexAll(t, MotionSix)
  }

  /** `basename(in).split('.')[0] + '.par'`. */
  function ParName(inConfounds: string): string {
    Split(Basename(inConfounds), ".")[0] + ".par"
  }

  /** The name is the basename cut before its first '.', plus ".par". */
  lemma ParNameShape(inConfounds: string)
    ensures var stem := ParName(inConfounds)[..|ParName(inConfounds)| - 4];
      ParName(inConfounds) == stem + ".par" &&
      StartsWith(Basename(inConfounds), stem) && '.' !in stem && '/' !in ParName(inConfounds) &&
      (|stem| < |Basename(inConfounds)| ==> Basename(inConfounds)[|stem|] == '.')
  {
    var b := Basename(inConfounds);
    var stem := Split(b, ".")[0];
    var par := ".par";
    assert ParName(inConfounds) == stem + par;
    assert (stem + par)[..|stem + par| - 4] == stem;
    FirstPieceShape(b, ".");
    ContainsChar(stem, '.');
    BasenameIsLastSegment(inConfounds);
    CharNotInPrefix(b, stem, '/');
    assert '/' !in par;
    CharNotInConcat(stem, par, '/');
    if |stem| < |b| {
      OccursAtHead(b, ".", |stem|);
    }
  }

  /** `c in s` for one character is `[c] in s` as a substring. */
  lemma ContainsChar(s: string, c: char)
    ensures Contains(s, [c]) <==> c in s
  {
    ContainsIff(s, [c]);
    if c in s {
      var j :| 0 <= j < |s| && s[j] == c;
      assert s[j..j + 1] == [c];
      assert OccursAt(s, [c], j);
    }
    if Contains(s, [c]) {
      var j :| 0 <= j <= |s| && OccursAt(s, [c], j);
      assert s[j] == s[j..j + 1][0];
    }
  }

  /** `os.path.abspath(name)` for a name relative to the working directory
      `cwd` (normalisation of `cwd` is not modelled). */
  function AbsPath(cwd: string, name: string): string {
    PathJoin(cwd, name)
  }

  /** A `.par` file: where `csv2par` writes it and what it holds. */
  datatype ParFile = ParFile(path: string, columns: seq<Column>)

  /** `csv2par` of conf_reg/utils.py: read the confounds table, copy its six
      motion columns, and name the file after the input in the working directory. */
  function Csv2Par(fs: FileSystem, cwd: string, inConfounds: string): (r: Result<ParFile>) {
    var df :- ReadCsv(fs, inConfounds);
    var columns :- ParColumns(df);
    Ok(ParFile(AbsPath(cwd, ParName(inConfounds)), columns))
  }

  /** The `.par` file exists exactly when the table can be read and has all
      six motion columns; it holds them in fixed order and sits in the working
      directory under a name derived from the input's basename. */
  lemma Csv2ParSpec(fs: FileSystem, cwd: string, inConfounds: string)
    ensures Csv2Par(fs, cwd, inConfounds).Ok? <==>
      inConfounds in fs.tables && forall k :: 0 <= k < 6 ==> MotionSix[k] in Keys(fs.tables[inConfounds])
    ensures Csv2Par(fs, cwd, inConfounds).Ok? ==>
      var p := Csv2Par(fs, cwd, inConfounds).value;
      |p.columns| == 6 &&
      (forall k :: 0 <= k < 6 ==> Get(fs.tables[inConfounds], MotionSix[k]) == Some(p.columns[k])) &&
      Basename(p.path) == ParName(inConfounds)
    ensures inConfounds !in fs.tables ==> Csv2Par(fs, cwd, inConfounds) == Err(FileNotFoundError(inConfounds))
  {
    if inConfounds in fs.tables {
      IndexAllSpec(fs.tables[inConfounds], MotionSix);
    }
    ParNameShape(inConfounds);
    BasenameOfPathJoin(cwd, ParName(inConfounds));
  }

  /** `in_confounds.split('.')[0] + '.par'` of confound_regression.py, cut on
      the whole path. */
  function LegacyParPath(inConfounds: string): string {
    Split(inConfounds, ".")[0] + ".par"
  }

  /** `csv2par` of confound_regression.py: the same columns, written next to
      the input under the legacy path. */
  function LegacyCsv2Par(fs: FileSystem, inConfounds: string): (r: Result<ParFile>) {
    var df :- ReadCsv(fs, inConfounds);
    var columns :- ParColumns(df);
    Ok(ParFile(LegacyParPath(inConfounds), columns))
  }

  /** The first `c` of `h + b` for a prefix `h` without `c` is the first `c` of `b`, shifted. */
  lemma {:induction false} FindCharAfterFreePrefix(h: string, b: string, c: char)
    requires c !in h
    ensures Find(h + b, [c]) == match Find(b, [c]) case None => None case Some(i) => Some(i + |h|)
    decreases |h|
  {
    if h != [] {
      assert (h + b)[1..] == h[1..] + b;
      assert (h + b)[..1] == [h[0]];
      FindCharAfterFreePrefix(h[1..], b, c);
    } else {
      assert h + b == b;
    }
  }

  /** Cutting at the first `c` reaches past a prefix without `c`. */
  lemma FirstPieceAfterFreePrefix(h: string, b: string, c: char)
    requires c !in h
    ensures Split(h + b, [c])[0] == h + Split(b, [c])[0]
  {
    FindCharAfterFreePrefix(h, b, c);
    match Find(b, [c])
    case None =>
      assert Split(b, [c]) == [b];
      assert Split(h + b, [c]) == [h + b];
    case Some(i) =>
      SplitAtFirst(b, [c], i);
      SplitAtFirst(h + b, [c], i + |h|);
      assert (h + b)[..i + |h|] == h + b[..i];
  }

  /** When no directory of the path holds a '.', the legacy rule names the
      same file as the newer one, placed in the input's directory. */
  lemma LegacyParPathInSameDirectory(inConfounds: string)
    requires '.' !in Head(inConfounds)
    ensures LegacyParPath(inConfounds) == Head(inConfounds) + ParName(inConfounds)
  {
    var h, b := Head(inConfounds), Basename(inConfounds);
    FirstPieceAfterFreePrefix(h, b, '.');
    assert Split(inConfounds, ".")[0] == h + Split(b, ".")[0];
  }

  /** A '.' in a directory name cuts the legacy path inside that directory:
      for `dir1.dir2/name` the older rule writes `dir1.par`, above the input's
      directory, while the newer rule still names the file after `name`. */
  lemma LegacyParPathCutsDottedDirectory(dir1: string, dir2: string, name: string)
    requires '.' !in dir1 && '/' !in name
    ensures var p := dir1 + "." + dir2 + "/" + name;
      LegacyParPath(p) == dir1 + ".par" && |dir1| < |Head(p)| &&
      ParName(p) == Split(name, ".")[0] + ".par"
  {
    var dot, slash := ".", "/";
    var dir := dir1 + dot + dir2;
    var b := dot + dir2 + slash + name;
    var p := dir1 + "." + dir2 + "/" + name;
    assert p == dir1 + b;
    assert p == dir + "/" + name;
    LegacyCutAt(dir1, b);
    BasenameOfJoin(dir, name);
    var h := Head(p);
    assert p == h + name;
  }

  lemma LegacyCutAt(h: string, b: string)
    requires '.' !in h && b != [] && b[0] == '.'
    ensures LegacyParPath(h + b) == h + ".par"
  {
    FirstPieceAfterFreePrefix(h, b, '.');
    LeadingSeparator(b, '.');
    assert h + [] == h;
  }

  /** A string that starts with `c` splits on `c` into an empty first piece. */
  lemma LeadingSeparator(s: string, c: char)
    requires s != [] && s[0] == c
    ensures Split(s, [c])[0] == []
  {
    assert s[..1] == [c];
    FirstPieceEmpty(s, [c]);
  }
}
