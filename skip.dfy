/** Which listed files the script downloads: the name filter, the destination path, and the
    size comparison with a file already present in the output directory. */
module Skip {
  import opened Remote

  /** The output directory: file name (a basename) to the bytes it holds. */
  type Directory = map<string, string>

  /** os.path.basename on a POSIX path: everything after the last '/'. */
  function Basename(path: string): string {
    if path == [] then []
    else if path[|path| - 1] == '/' then []
    else Basename(path[..|path| - 1]) + [path[|path| - 1]]
  }

  /** The basename is the last component of the path: a suffix without '/', preceded in the
      path by a '/' unless it is the whole path. */
  lemma {:induction false} BasenameIsLastComponent(path: string)
    ensures var r := Basename(path);
      && '/' !in r
      && |r| <= |path| && r == path[|path| - |r|..]
      && (|r| < |path| ==> path[|path| - |r| - 1] == '/')
    decreases |path|
  {
    if path != [] && path[|path| - 1] != '/' {
      var init := path[..|path| - 1];
      BasenameIsLastComponent(init);
      var r := Basename(init);
      assert path[|path| - |r| - 1..] == init[|init| - |r|..] + [path[|path| - 1]];
    }
  }

  lemma {:induction false} BasenameOfPlainName(name: string)
    requires '/' !in name
    ensures Basename(name) == name
    decreases |name|
  {
    if name != [] {
      var init := name[..|name| - 1];
      assert forall k :: 0 <= k < |init| ==> init[k] == name[k];
      BasenameOfPlainName(init);
      assert init + [name[|name| - 1]] == name;
    }
  }

  /** Size of the local file at dest, None when it does not exist (os.path.exists / os.stat). */
  function LocalSize(dir: Directory, dest: string): Option<int> {
    if dest in dir then Some(|dir[dest]|) else None
  }

  /** The outcome of the per-file checks: skipped by the filter, skipped because a local file of
      the remote size exists, downloaded after removing a local file of another size, or
      downloaded into a new file. */
  datatype Decision = Filtered | UpToDate | Replace | Fresh {
    predicate Downloads() { Replace? || Fresh? }
  }

  /** The checks made for one listed file. search(pattern, name) stands for re.search. */
  function Decide(pattern: Option<string>, search: (string, string) -> bool, file: LogFile,
                  local: Option<int>): (d: Decision)
    ensures d == Filtered <==> pattern.Some? && !search(pattern.value, file.name)
    ensures d.Downloads() <==> (pattern.None? || search(pattern.value, file.name)) && local != Some(file.size)
    ensures d == UpToDate ==> local == Some(file.size)
    ensures d == Replace ==> local.Some? && local.value != file.size
    ensures d == Fresh ==> local.None?
  {
    if pattern.Some? && !search(pattern.value, file.name) then Filtered
    else if local.Some? then
      if local.value == file.size then UpToDate else Replace
    else Fresh
  }

  /** The directory as the download loop starts: os.remove of a mismatching file followed by
      open(destination, "wb") leaves an empty file at dest either way. */
  function Prepare(dir: Directory, dest: string, d: Decision): (r: Directory)
    ensures d.Downloads() ==> dest in r && r[dest] == [] && r.Keys == dir.Keys + {dest}
    ensures d.Downloads() ==> forall k :: k in dir && k != dest ==> r[k] == dir[k]
    ensures !d.Downloads() ==> r == dir
  {
    if d.Downloads() then dir[dest := []] else dir
  }

  /** Whatever was at dest before, the download's content replaces it: removing a mismatching
      file and truncating on open leave nothing of the old content behind. */
  lemma PrepareThenWrite(dir: Directory, dest: string, d: Decision, w: string)
    requires d.Downloads()
    ensures Prepare(dir, dest, d)[dest := w] == dir[dest := w]
  {
    var m := Prepare(dir, dest, d)[dest := w];
    assert m.Keys == dir[dest := w].Keys;
    forall k | k in m ensures m[k] == dir[dest := w][k] {
    }
  }

  /** A file whose local copy has the remote size is skipped on the next run whatever its content,
      so a partial download whose length happens to equal Size is taken for complete. */
  lemma {:induction false} SameSizeIsSkipped(pattern: Option<string>, search: (string, string) -> bool,
                                             file: LogFile, dir: Directory)
    requires pattern.None? || search(pattern.value, file.name)
    requires Basename(file.name) in dir && |dir[Basename(file.name)]| == file.size
    ensures Decide(pattern, search, file, LocalSize(dir, Basename(file.name))) == UpToDate
  {
  }
}
