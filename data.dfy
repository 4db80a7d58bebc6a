/** The data the pipeline reads: confound and framewise-displacement tables
    as pandas reads them from CSV, 4-D images as nibabel loads them, and the
    files on disk as maps from path to content. */
module Data {
  import opened Outcomes

  /** One numeric column of a table, one value per time point. */
  type Column = seq<real>

  /** A table read by `pandas.read_csv`: named columns in file order. */
  type Table = seq<(string, Column)>

  /** `DataFrame.keys()`: the column names in table order. */
  function Keys(t: Table): (ks: seq<string>)
    ensures |ks| == |t| && forall k :: 0 <= k < |t| ==> ks[k] == t[k].0
  {
    seq(|t|, k requires 0 <= k < |t| => t[k].0)
  }

  /** `DataFrame.get(name)`: the first column called `name`, or None when
      there is none; it never raises. */
  function Get(t: Table, name: string): (r: Option<Column>)
    ensures r.None? <==> forall k :: 0 <= k < |t| ==> t[k].0 != name
  {
    if t == [] then None
    else if t[0].0 == name then Some(t[0].1)
    else Get(t[1..], name)
  }

  /** A column found by Get is the first one of that name. */
  lemma {:induction false} GetFirst(t: Table, name: string)
    ensures Get(t, name).Some? ==> exists k :: 0 <= k < |t| && t[k] == (name, Get(t, name).value) &&
                                              forall j :: 0 <= j < k ==> t[j].0 != name
  {
    if t != [] && t[0].0 != name && Get(t, name).Some? {
      GetFirst(t[1..], name);
      var k :| 0 <= k < |t[1..]| && t[1..][k] == (name, Get(t[1..], name).value) &&
               forall j :: 0 <= j < k ==> t[1..][j].0 != name;
      assert t[k + 1] == (name, Get(t, name).value);
      assert forall j :: 1 <= j < k + 1 ==> t[j].0 == t[1..][j - 1].0;
    }
  }

  lemma GetPresent(t: Table, name: string)
    ensures Get(t, name).Some? <==> name in Keys(t)
  {
  }

  /** `df[name]`: the column, or KeyError when it is absent. */
  function Index(t: Table, name: string): (r: Result<Column>)
    ensures r.Err? <==> name !in Keys(t)
    ensures r.Err? ==> r.error == KeyError(name)
    ensures r.Ok? ==> Get(t, name) == Some(r.value)
  {
    GetPresent(t, name);
    match Get(t, name)
    case None => Err(KeyError(name))
    case Some(c) => Ok(c)
  }

  /** One time point of a 4-D image: its voxel values. */
  type Frame = seq<real>

  /** A 4-D image: its frames along the time axis, affine and header. */
  datatype Image = Image(frames: seq<Frame>, affine: seq<seq<real>>, header: map<string, string>)

  /** The files the pipeline can read, by path. */
  datatype FileSystem = FileSystem(tables: map<string, Table>, images: map<string, Image>)

  /** `pandas.read_csv(path)` */
  function ReadCsv(fs: FileSystem, path: string): (r: Result<Table>)
    ensures r.Ok? <==> path in fs.tables
    ensures r.Ok? ==> r.value == fs.tables[path]
    ensures r.Err? ==> r.error == FileNotFoundError(path)
  {
    if path in fs.tables then Ok(fs.tables[path]) else Err(FileNotFoundError(path))
  }

  /** Loading an image file, as nilearn does when handed a path: a path
      that does not exist raises ValueError ("File not found"), not
      FileNotFoundError. */
  function LoadImage(fs: FileSystem, path: string): (r: Result<Image>)
    ensures r.Ok? <==> path in fs.images
    ensures r.Ok? ==> r.value == fs.images[path]
    ensures r.Err? ==> r.error == ValueError
  {
    if path in fs.images then Ok(fs.images[path]) else Err(ValueError)
  }
}
