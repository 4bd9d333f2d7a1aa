/**
  The per-file parsing of the z-map fetchers in
  `cogspaces/datasets/contrasts.py`: each fetcher turns the paths that
  `glob` (or `os.listdir`) returned into rows (subject, task, contrast,
  direction, z_map), dropping the paths its filter rejects, and the
  `n_subjects` argument keeps the rows of the first subjects only.
  Directory listings are inputs of the model.
*/
module Contrasts {
  import opened Wrappers
  import opened PyText

  /** One row of a fetcher's table: its index columns and the z-map path. */
  datatype Record = Record(subject: int, task: string, contrast: string, direction: string, zMap: string)

  /**
    `int(text)` raised `ValueError`, which ends the whole fetch; or brainpedia
    found no map at all, and `set_index` on the column-less frame raised `KeyError`.
  */
  datatype FetchError = BadInteger(text: string) | NoRecords

  /** What one path contributes: a row, nothing (filtered out), or an error. */
  type Parsed = Result<Option<Record>, FetchError>

  function ParseSubject(text: string): Result<int, FetchError>
  {
    match ParseInt(text)
    case None => Failure(BadInteger(text))
    case Some(n) => Success(n)
  }

  // ---------------------------------------------------------------------------
  // fetch_camcan

  const CamcanContrasts: seq<string> := ["AudOnly", "VidOnly", "AudVid1200", "AudVid300", "AudVid600"]

  function CamcanTask(contrast: string): string
  {
    if contrast in ["AudOnly", "VidOnly"] then "audio-video" else "AV-freq"
  }

  /**
    A camcan path `<root>/<dir>/<file>`: the contrast is the file name without
    its first 13 and last 15 characters, the subject the directory name from
    its 7th character on. The subject is parsed before the contrast is checked
    against the five kept contrasts.
  */
  function ParseCamcan(zMap: string): (r: Parsed)
    ensures r.Success? && r.value.Some? ==>
      && r.value.value.contrast in CamcanContrasts
      && r.value.value.task == CamcanTask(r.value.value.contrast)
      && r.value.value.direction == "level1" && r.value.value.zMap == zMap
    ensures r.Success? && r.value.Some? ==>
      && r.value.value.contrast == PySlice(Split(zMap).1, Some(13), Some(-15))
      && ParseSubject(PySlice(Split(Split(zMap).0).1, Some(6), None)) == Success(r.value.value.subject)
    ensures r.Success? ==> (r.value.None? <==> PySlice(Split(zMap).1, Some(13), Some(-15)) !in CamcanContrasts)
    ensures r.Failure? <==> ParseInt(PySlice(Split(Split(zMap).0).1, Some(6), None)).None?
  {
    var (dir, file) := Split(zMap);
    var (_, subjectDir) := Split(dir);
    var contrast := PySlice(file, Some(13), Some(-15));
    match ParseSubject(PySlice(subjectDir, Some(6), None))
    case Failure(e) => Failure(e)
    case Success(subject) =>
      if contrast in CamcanContrasts then Success(Some(Record(subject, CamcanTask(contrast), contrast, "level1", zMap)))
      else Success(None)
  }

  predicate NoSep(s: string)
  {
    forall j :: 0 <= j < |s| ==> s[j] != '/'
  }

  predicate Segment(s: string)
  {
    |s| > 0 && NoSep(s)
  }

  lemma NoSepConcat(a: string, b: string)
    requires NoSep(a) && NoSep(b)
    ensures NoSep(a + b)
  {
  }

  lemma DigitsNoSep(s: string)
    requires forall j :: 0 <= j < |s| ==> IsDigit(s[j])
    ensures NoSep(s)
  {
  }

  /** Joining a path segment onto a path that does not end in '/' gives one that does not either. */
  lemma JoinSegment(a: string, b: string)
    requires |a| > 0 && a[|a| - 1] != '/' && Segment(b)
    ensures Join(a, b) == a + "/" + b
    ensures |Join(a, b)| > 0 && Join(a, b)[|Join(a, b)| - 1] != '/'
  {
  }

  lemma {:induction false} ShowNatShort(n: nat, k: nat)
    requires 1 <= k && n < Pow10(k)
    ensures |ShowNat(n)| <= k
  {
    if n >= 10 {
      ShowNatShort(n / 10, k - 1);
    }
  }

  function Pow10(k: nat): (p: nat)
    ensures p >= 1
  {
    if k == 0 then 1 else 10 * Pow10(k - 1)
  }

  lemma PaddedWidth(n: nat, width: nat)
    requires 1 <= width && n < Pow10(width)
    ensures |ZeroPadded(n, width)| == width
  {
    ShowNatShort(n, width);
  }

  /**
    The camcan layout read back: `<root>/sub-CC<id>/sub-CC<id>_<contrast>_z_score.nii.gz`
    with a six-digit id yields the row of that subject and contrast.
  */
  lemma CamcanRoundTrip(root: string, id: nat, contrast: string)
    requires |root| > 0 && root[|root| - 1] != '/'
    requires id < 1000000 && contrast in CamcanContrasts
    ensures var digits := ZeroPadded(id, 6);
            var dir := "sub-CC" + digits;
            var path := Join(Join(root, dir), dir + "_" + contrast + "_z_score.nii.gz");
            ParseCamcan(path) == Success(Some(Record(id, CamcanTask(contrast), contrast, "level1", path)))
  {
    var dir := "sub-CC" + ZeroPadded(id, 6);
    var file := dir + "_" + contrast + "_z_score.nii.gz";
    CamcanDir(id);
    assert NoSep(contrast) by {
      CamcanContrastsNoSep(contrast);
    }
    CamcanFile(dir, contrast);
    TwoLevelPath(root, dir, file);
  }

  lemma CamcanContrastsNoSep(contrast: string)
    requires contrast in CamcanContrasts
    ensures NoSep(contrast)
  {
  }

  /** A camcan subject directory `sub-CC<id>` with a six-digit id: 12 characters, no '/', id from the 7th on. */
  lemma CamcanDir(id: nat)
    requires id < 1000000
    ensures |"sub-CC" + ZeroPadded(id, 6)| == 12 && Segment("sub-CC" + ZeroPadded(id, 6))
    ensures ParseSubject(PySlice("sub-CC" + ZeroPadded(id, 6), Some(6), None)) == Success(id)
  {
    var digits := ZeroPadded(id, 6);
    PaddedWidth(id, 6);
    DigitsNoSep(digits);
    NoSepConcat("sub-CC", digits);
    SliceAfterPrefix("sub-CC", digits);
    ParseZeroPadded(id, 6);
  }

  /** A camcan file name `<dir>_<contrast>_z_score.nii.gz` for a 12-character directory name. */
  lemma CamcanFile(dir: string, contrast: string)
    requires |dir| == 12 && NoSep(dir) && NoSep(contrast)
    ensures Segment(dir + "_" + contrast + "_z_score.nii.gz")
    ensures PySlice(dir + "_" + contrast + "_z_score.nii.gz", Some(13), Some(-15)) == contrast
  {
    NoSepConcat(dir, "_");
    NoSepConcat(dir + "_", contrast);
    NoSepConcat(dir + "_" + contrast, "_z_score.nii.gz");
    SliceBetweenAffixes(dir + "_", contrast, "_z_score.nii.gz");
  }

  /** `<root>/<dir>/<file>` splits back into its parts. */
  lemma TwoLevelPath(root: string, dir: string, file: string)
    requires |root| > 0 && root[|root| - 1] != '/' && Segment(dir) && Segment(file)
    ensures Split(Join(Join(root, dir), file)) == (Join(root, dir), file)
    ensures Split(Join(root, dir)) == (root, dir)
  {
    JoinSegment(root, dir);
    SplitJoin(Join(root, dir), file);
    SplitJoin(root, dir);
  }

  // ---------------------------------------------------------------------------
  // fetch_brainomics

  predicate VsAt(s: string, i: int)
  {
    0 <= i < |s| - 1 && s[i] == 'v' && s[i + 1] == 's'
  }

  predicate NewlineFree(s: string)
  {
    forall j :: 0 <= j < |s| ==> s[j] != '\n'
  }

  /** `re.match('.*vs.*', s)`: scanning from the start, "vs" is met before any newline. */
  function MatchesVs(s: string): bool
  {
    if |s| < 2 || s[0] == '\n' then false
    else if s[0] == 'v' && s[1] == 's' then true
    else MatchesVs(s[1..])
  }

  /** The pattern matches exactly when "vs" occurs on the first line of the path. */
  lemma {:induction false} MatchesVsMeans(s: string)
    ensures MatchesVs(s) <==> exists i :: VsAt(s, i) && NewlineFree(s[..i])
  {
    if |s| < 2 {
    } else if s[0] == '\n' {
      forall i | VsAt(s, i) ensures !NewlineFree(s[..i]) {
        assert s[..i][0] == '\n';
      }
    } else if s[0] == 'v' && s[1] == 's' {
      assert VsAt(s, 0) && NewlineFree(s[..0]);
    } else {
      MatchesVsMeans(s[1..]);
      if MatchesVs(s[1..]) {
        var i :| VsAt(s[1..], i) && NewlineFree(s[1..][..i]);
        assert s[..i + 1] == [s[0]] + s[1..][..i];
        assert VsAt(s, i + 1) && NewlineFree(s[..i + 1]);
      }
      if exists i :: VsAt(s, i) && NewlineFree(s[..i]) {
        var i :| VsAt(s, i) && NewlineFree(s[..i]);
        assert s[1..][..i - 1] == s[..i][1..];
        assert VsAt(s[1..], i - 1) && NewlineFree(s[1..][..i - 1]);
      }
    }
  }

  /**
    A brainomics path not matching the pattern: the contrast is the file name
    without its first 6 and last 7 characters, the subject the last two
    characters of the whole directory part; the task is always 'localizer'.
  */
  function ParseBrainomics(zMap: string): (r: Parsed)
    ensures r.Success? && r.value.None? <==> MatchesVs(zMap)
    ensures r.Success? && r.value.Some? ==>
      && r.value.value.task == "localizer" && r.value.value.direction == "level1" && r.value.value.zMap == zMap
      && r.value.value.contrast == PySlice(Split(zMap).1, Some(6), Some(-7))
      && ParseSubject(PySlice(Split(zMap).0, Some(-2), None)) == Success(r.value.value.subject)
    ensures r.Failure? <==> !MatchesVs(zMap) && ParseInt(PySlice(Split(zMap).0, Some(-2), None)).None?
  {
    if MatchesVs(zMap) then Success(None)
    else
      var (dir, file) := Split(zMap);
      match ParseSubject(PySlice(dir, Some(-2), None))
      case Failure(e) => Failure(e)
      case Success(subject) =>
        Success(Some(Record(subject, "localizer", PySlice(file, Some(6), Some(-7)), "level1", zMap)))
  }

  /**
    The brainomics layout read back: `<root>/<dir><id>/<prefix><contrast>.nii.gz`
    with a two-digit id and a six-character prefix yields that row, unless
    the path contains "vs" on its first line.
  */
  lemma BrainomicsRoundTrip(root: string, dir: string, id: nat, prefix: string, contrast: string)
    requires |root| > 0 && root[|root| - 1] != '/' && NoSep(dir)
    requires id < 100 && |prefix| == 6 && NoSep(prefix) && NoSep(contrast)
    ensures var parent := Join(root, dir + ZeroPadded(id, 2));
            var path := Join(parent, prefix + contrast + ".nii.gz");
            !MatchesVs(path) ==>
              ParseBrainomics(path) == Success(Some(Record(id, "localizer", contrast, "level1", path)))
  {
    var digits := ZeroPadded(id, 2);
    PaddedWidth(id, 2);
    DigitsNoSep(digits);
    var leaf := dir + digits;
    assert Segment(leaf);
    var file := prefix + contrast + ".nii.gz";
    assert Segment(file);
    JoinSegment(root, leaf);
    var parent := Join(root, leaf);
    SplitJoin(parent, file);
    assert parent == (root + "/" + dir) + digits;
    SliceLast(root + "/" + dir, digits);
    SliceBetweenAffixes(prefix, contrast, ".nii.gz");
    ParseZeroPadded(id, 2);
  }

  // ---------------------------------------------------------------------------
  // fetch_archi, fetch_human_voice, fetch_la5c

  const ArchiContrasts: seq<string> := [
    "expression_control", "expression_intention", "expression_sex", "face_control", "face_sex",
    "face_trusty", "audio", "calculaudio", "calculvideo", "clicDaudio", "clicDvideo", "clicGaudio",
    "clicGvideo", "computation", "damier_H", "damier_V", "object_grasp", "object_orientation",
    "rotation_hand", "rotation_side", "saccade", "motor-cognitive", "false_belief_audio",
    "false_belief_video", "mecanistic_audio", "mecanistic_video", "non_speech", "speech",
    "triangle_intention", "triangle_random"]

  /**
    A path `<root>/<subject>/<task>/<leaf>/<file>` of the GLM layouts: the
    contrast is the file name without its first 2 and last 7 characters; a
    contrast that `keep` accepts gets the task from the grandparent directory
    and the subject from the last three characters of the one above it.
  */
  function ParseGlm(zMap: string, keep: string -> bool): (r: Parsed)
    ensures r.Success? && r.value.None? <==> !keep(PySlice(Split(zMap).1, Some(2), Some(-7)))
    ensures r.Success? && r.value.Some? ==>
      && r.value.value.contrast == PySlice(Split(zMap).1, Some(2), Some(-7))
      && r.value.value.direction == "level1" && r.value.value.zMap == zMap
      && NoSep(r.value.value.task)
      && r.value.value.task == Split(Split(Split(zMap).0).0).1
      && ParseSubject(PySlice(Split(Split(Split(Split(zMap).0).0).0).1, Some(-3), None)) == Success(r.value.value.subject)
    ensures r.Failure? <==>
      keep(PySlice(Split(zMap).1, Some(2), Some(-7)))
      && ParseInt(PySlice(Split(Split(Split(Split(zMap).0).0).0).1, Some(-3), None)).None?
  {
    var (dir, file) := Split(zMap);
    var contrast := PySlice(file, Some(2), Some(-7));
    if !keep(contrast) then Success(None)
    else
      var (taskDir, _) := Split(dir);
      var (subjectDir, task) := Split(taskDir);
      var (_, subject) := Split(subjectDir);
      match ParseSubject(PySlice(subject, Some(-3), None))
      case Failure(e) => Failure(e)
      case Success(n) => Success(Some(Record(n, task, contrast, "level1", zMap)))
  }

  /** `fetch_archi` keeps the thirty listed contrasts only. */
  function ParseArchi(zMap: string): (r: Parsed)
    ensures r.Success? && r.value.None? <==> PySlice(Split(zMap).1, Some(2), Some(-7)) !in ArchiContrasts
    ensures r.Success? && r.value.Some? ==> r.value.value.contrast in ArchiContrasts
    ensures r.Failure? ==> PySlice(Split(zMap).1, Some(2), Some(-7)) in ArchiContrasts
  {
    ParseGlm(zMap, c => c in ArchiContrasts)
  }

  /** `fetch_human_voice` and `fetch_la5c` keep every contrast. */
  function ParseUnfiltered(zMap: string): (r: Parsed)
    ensures r.Success? ==> r.value.Some? && r.value.value.contrast == PySlice(Split(zMap).1, Some(2), Some(-7))
  {
    ParseGlm(zMap, _ => true)
  }

  lemma JoinAllFour(root: string, a: string, b: string, c: string, d: string)
    ensures JoinAll(root, [a, b, c, d]) == Join(Join(Join(Join(root, a), b), c), d)
  {
    assert [a, b, c, d][..3] == [a, b, c];
    assert [a, b, c][..2] == [a, b];
    assert [a, b][..1] == [a];
    assert JoinAll(root, [a]) == Join(root, a);
    assert JoinAll(root, [a, b]) == Join(JoinAll(root, [a]), b);
    assert JoinAll(root, [a, b, c]) == Join(JoinAll(root, [a, b]), c);
  }

  /**
    The four nested joins of a GLM path, and each split of it taking back one
    segment.
  */
  lemma GlmPath(root: string, subject: string, task: string, leaf: string, file: string)
    requires |root| > 0 && root[|root| - 1] != '/'
    requires Segment(subject) && Segment(task) && Segment(leaf) && Segment(file)
    ensures var d1 := Join(root, subject);
            var d2 := Join(d1, task);
            var d3 := Join(d2, leaf);
            && JoinAll(root, [subject, task, leaf, file]) == Join(d3, file)
            && Split(Join(d3, file)) == (d3, file) && Split(d3) == (d2, leaf)
            && Split(d2) == (d1, task) && Split(d1) == (root, subject)
  {
    var d1 := Join(root, subject);
    var d2 := Join(d1, task);
    var d3 := Join(d2, leaf);
    JoinAllFour(root, subject, task, leaf, file);
    JoinSegment(root, subject);
    JoinSegment(d1, task);
    JoinSegment(d2, leaf);
    SplitJoin(d3, file);
    SplitJoin(d2, leaf);
    SplitJoin(d1, task);
    SplitJoin(root, subject);
  }

  /** A GLM z-map file name `z_<contrast>.nii.gz` is one segment and gives its contrast back. */
  lemma GlmFileName(contrast: string)
    requires NoSep(contrast)
    ensures Segment("z_" + contrast + ".nii.gz")
    ensures PySlice("z_" + contrast + ".nii.gz", Some(2), Some(-7)) == contrast
  {
    NoSepConcat("z_", contrast);
    NoSepConcat("z_" + contrast, ".nii.gz");
    SliceBetweenAffixes("z_", contrast, ".nii.gz");
  }

  /** A subject directory `<name><id>` with a three-digit id: one segment whose last three characters parse to the id. */
  lemma GlmSubject(name: string, id: nat)
    requires NoSep(name) && id < 1000
    ensures Segment(name + ZeroPadded(id, 3))
    ensures ParseSubject(PySlice(name + ZeroPadded(id, 3), Some(-3), None)) == Success(id)
  {
    var digits := ZeroPadded(id, 3);
    PaddedWidth(id, 3);
    DigitsNoSep(digits);
    NoSepConcat(name, digits);
    SliceLast(name, digits);
    ParseZeroPadded(id, 3);
  }

  /**
    The GLM layout read back: `<root>/<name><id>/<task>/<leaf>/z_<contrast>.nii.gz`
    with a three-digit id yields that row when the contrast is kept, and
    nothing otherwise.
  */
  lemma GlmRoundTrip(root: string, name: string, id: nat, task: string, leaf: string, contrast: string,
                     keep: string -> bool)
    requires |root| > 0 && root[|root| - 1] != '/' && NoSep(name) && id < 1000
    requires Segment(task) && Segment(leaf) && NoSep(contrast)
    ensures var path := JoinAll(root, [name + ZeroPadded(id, 3), task, leaf, "z_" + contrast + ".nii.gz"]);
            ParseGlm(path, keep) ==
              if keep(contrast) then Success(Some(Record(id, task, contrast, "level1", path))) else Success(None)
  {
    var subject := name + ZeroPadded(id, 3);
    var file := "z_" + contrast + ".nii.gz";
    GlmSubject(name, id);
    GlmFileName(contrast);
    GlmPath(root, subject, task, leaf, file);
  }

  // ---------------------------------------------------------------------------
  // the loop over the globbed paths, shared by the five level-1 fetchers

  /** The rows of the kept paths in input order, or the error of the first path whose subject is not an integer. */
  function Collected(paths: seq<string>, parse: string -> Parsed): Result<seq<Record>, FetchError>
  {
    if |paths| == 0 then Success([])
    else
      match Collected(paths[..|paths| - 1], parse)
      case Failure(e) => Failure(e)
      case Success(rows) =>
        match parse(paths[|paths| - 1])
        case Failure(e) => Failure(e)
        case Success(None) => Success(rows)
        case Success(Some(row)) => Success(rows + [row])
  }

  /**
    A successful loop parsed every path, and its rows are exactly the rows of
    the paths the parser kept.
  */
  lemma {:induction false} CollectedRows(paths: seq<string>, parse: string -> Parsed)
    requires Collected(paths, parse).Success?
    ensures forall k :: 0 <= k < |paths| ==> parse(paths[k]).Success?
    ensures forall row :: row in Collected(paths, parse).value <==>
      exists k :: 0 <= k < |paths| && parse(paths[k]) == Success(Some(row))
  {
    if |paths| > 0 {
      var n := |paths| - 1;
      var front := paths[..n];
      CollectedRows(front, parse);
      forall row ensures row in Collected(paths, parse).value <==>
        exists k :: 0 <= k < |paths| && parse(paths[k]) == Success(Some(row))
      {
        if exists k :: 0 <= k < |paths| && parse(paths[k]) == Success(Some(row)) {
          var k :| 0 <= k < |paths| && parse(paths[k]) == Success(Some(row));
          if k < n {
            assert front[k] == paths[k];
          }
        }
        if row in Collected(front, parse).value {
          var k :| 0 <= k < |front| && parse(front[k]) == Success(Some(row));
          assert paths[k] == front[k];
        }
      }
    }
  }

  /**
    The loop fails exactly when some path's subject is not an integer, and
    then with the error of the first such path.
  */
  lemma {:induction false} CollectedFailure(paths: seq<string>, parse: string -> Parsed)
    ensures Collected(paths, parse).Failure? <==> exists k :: 0 <= k < |paths| && parse(paths[k]).Failure?
    ensures Collected(paths, parse).Failure? ==>
      exists k :: 0 <= k < |paths| && parse(paths[k]) == Failure(Collected(paths, parse).error) &&
        forall j :: 0 <= j < k ==> parse(paths[j]).Success?
  {
    if |paths| > 0 {
      var n := |paths| - 1;
      var front := paths[..n];
      CollectedFailure(front, parse);
      if Collected(front, parse).Failure? {
        assert Collected(paths, parse) == Collected(front, parse);
        var k :| 0 <= k < |front| && parse(front[k]) == Failure(Collected(front, parse).error) &&
          forall j :: 0 <= j < k ==> parse(front[j]).Success?;
        assert paths[k] == front[k];
        forall j | 0 <= j < k ensures parse(paths[j]).Success? {
          assert paths[j] == front[j];
        }
      } else {
        forall j | 0 <= j < n ensures parse(paths[j]).Success? {
          assert paths[j] == front[j];
          assert !parse(front[j]).Failure?;
        }
        if parse(paths[n]).Failure? {
          assert Collected(paths, parse) == Failure(parse(paths[n]).error);
        } else {
          assert Collected(paths, parse).Success?;
        }
      }
    }
  }

  /** When the parser keeps every path, the rows are the paths' rows one for one, in order. */
  lemma {:induction false} CollectedEveryPath(paths: seq<string>, parse: string -> Parsed)
    requires forall k :: 0 <= k < |paths| ==> parse(paths[k]).Success? && parse(paths[k]).value.Some?
    ensures Collected(paths, parse).Success?
    ensures |Collected(paths, parse).value| == |paths|
    ensures forall k :: 0 <= k < |paths| ==> Collected(paths, parse).value[k] == parse(paths[k]).value.value
  {
    if |paths| > 0 {
      var n := |paths| - 1;
      var front := paths[..n];
      forall k | 0 <= k < n ensures parse(front[k]).Success? && parse(front[k]).value.Some? {
        assert front[k] == paths[k];
      }
      CollectedEveryPath(front, parse);
    }
  }

  /** Once a prefix of the paths fails, the whole loop fails with the same error. */
  lemma {:induction false} CollectedStops(paths: seq<string>, parse: string -> Parsed, k: nat)
    requires k <= |paths| && Collected(paths[..k], parse).Failure?
    ensures Collected(paths, parse) == Collected(paths[..k], parse)
  {
    if k < |paths| {
      var n := |paths| - 1;
      assert paths[..n][..k] == paths[..k];
      CollectedStops(paths[..n], parse, k);
    } else {
      assert paths[..k] == paths;
    }
  }

  /**
    The five parallel lists a fetcher fills: `subjects`, `tasks`, `contrasts`,
    `directions` and `filtered_z_maps`.
  */
  datatype Table = Table(subjects: seq<int>, tasks: seq<string>, contrasts: seq<string>,
                         directions: seq<string>, zMaps: seq<string>)
  {
    predicate Aligned()
    {
      |tasks| == |subjects| && |contrasts| == |subjects| && |directions| == |subjects| && |zMaps| == |subjects|
    }

    function Rows(): (r: seq<Record>)
      requires Aligned()
      ensures |r| == |subjects|
    {
      seq(|subjects|, k requires 0 <= k < |subjects| =>
        Record(subjects[k], tasks[k], contrasts[k], directions[k], zMaps[k]))
    }
  }

  /** Rows laid out as the five lists: equal lengths, and the k-th entries make up the k-th row. */
  function Tabulate(rows: seq<Record>): (t: Table)
    ensures t.Aligned() && t.Rows() == rows
  {
    if |rows| == 0 then Table([], [], [], [], [])
    else
      var t := Tabulate(rows[..|rows| - 1]);
      var row := rows[|rows| - 1];
      var t' := Table(t.subjects + [row.subject], t.tasks + [row.task], t.contrasts + [row.contrast],
                      t.directions + [row.direction], t.zMaps + [row.zMap]);
      assert t'.Rows() == rows by {
        assert t.Rows() == rows[..|rows| - 1];
        forall k | 0 <= k < |rows| ensures t'.Rows()[k] == rows[k] {
          if k < |rows| - 1 {
            assert t.Rows()[k] == rows[k];
          }
        }
      }
      t'
  }

  /** One fetcher's loop: every path parsed in order, each kept row appended to the five lists. */
  method Collect(paths: seq<string>, parse: string -> Parsed) returns (r: Result<Table, FetchError>)
    ensures Collected(paths, parse).Failure? ==> r == Failure(Collected(paths, parse).error)
    ensures Collected(paths, parse).Success? ==> r == Success(Tabulate(Collected(paths, parse).value))
    ensures r.Success? ==> r.value.Aligned()
  {
    var subjects: seq<int> := [];
    var tasks: seq<string> := [];
    var contrasts: seq<string> := [];
    var directions: seq<string> := [];
    var zMaps: seq<string> := [];
    for k := 0 to |paths|
      invariant Collected(paths[..k], parse).Success?
      invariant Table(subjects, tasks, contrasts, directions, zMaps) == Tabulate(Collected(paths[..k], parse).value)
    {
      assert paths[..k + 1][..k] == paths[..k];
      match parse(paths[k]) {
        case Failure(e) =>
          CollectedStops(paths, parse, k + 1);
          return Failure(e);
        case Success(None) =>
        case Success(Some(row)) =>
          subjects := subjects + [row.subject];
          tasks := tasks + [row.task];
          contrasts := contrasts + [row.contrast];
          directions := directions + [row.direction];
          zMaps := zMaps + [row.zMap];
      }
    }
    assert paths[..|paths|] == paths;
    r := Success(Table(subjects, tasks, contrasts, directions, zMaps));
  }

  // ---------------------------------------------------------------------------
  // sort_index and df.loc[subjects[:n_subjects]]

  predicate Increasing(s: seq<int>)
  {
    forall i, j :: 0 <= i < j < |s| ==> s[i] < s[j]
  }

  function Subjects(rows: seq<Record>): set<int>
  {
    set k | 0 <= k < |rows| :: rows[k].subject
  }

  function Insert(s: seq<int>, x: int): (r: seq<int>)
    requires Increasing(s)
    ensures Increasing(r) && forall y :: y in r <==> y in s || y == x
  {
    if |s| == 0 then [x]
    else if x < s[0] then [x] + s
    else if x == s[0] then s
    else
      var rest := Insert(s[1..], x);
      forall y | y in rest ensures y > s[0] {
        if y != x {
          var k :| 0 <= k < |s[1..]| && s[1..][k] == y;
          assert s[k + 1] == y;
        }
      }
      var r := [s[0]] + rest;
      assert Increasing(r) by {
        forall i, j | 0 <= i < j < |r| ensures r[i] < r[j] {
          assert r[j] == rest[j - 1] && rest[j - 1] in rest;
        }
      }
      r
  }

  lemma SubjectsSnoc(rows: seq<Record>)
    requires |rows| > 0
    ensures Subjects(rows) == Subjects(rows[..|rows| - 1]) + {rows[|rows| - 1].subject}
  {
    var n := |rows| - 1;
    forall x | x in Subjects(rows[..n]) ensures x in Subjects(rows) {
      var k :| 0 <= k < n && rows[..n][k].subject == x;
      assert rows[k].subject == x;
    }
    forall x | x in Subjects(rows) ensures x in Subjects(rows[..n]) + {rows[n].subject} {
      var k :| 0 <= k < |rows| && rows[k].subject == x;
      if k < n {
        assert rows[..n][k].subject == x;
      }
    }
  }

  /** `df.index.get_level_values('subject').unique()` of the sorted frame: each subject once, ascending. */
  function SortedSubjects(rows: seq<Record>): (r: seq<int>)
    ensures Increasing(r) && forall x :: x in r <==> x in Subjects(rows)
  {
    if |rows| == 0 then []
    else
      SubjectsSnoc(rows);
      Insert(SortedSubjects(rows[..|rows| - 1]), rows[|rows| - 1].subject)
  }

  /** `subjects[:n_subjects]`, `None` keeping them all. */
  function KeptSubjects(rows: seq<Record>, nSubjects: Option<int>): seq<int>
  {
    PySlice(SortedSubjects(rows), None, nSubjects)
  }

  /** The rows whose subject is listed. */
  function RowsOf(rows: seq<Record>, keep: seq<int>): (r: seq<Record>)
    ensures forall row :: row in r <==> row in rows && row.subject in keep
  {
    if |rows| == 0 then []
    else
      var front := RowsOf(rows[..|rows| - 1], keep);
      var row := rows[|rows| - 1];
      assert forall x :: x in rows <==> x in rows[..|rows| - 1] || x == row;
      if row.subject in keep then front + [row] else front
  }

  /** `df.loc[subjects[:n_subjects]]`: the rows of the kept subjects. */
  function SelectSubjects(rows: seq<Record>, nSubjects: Option<int>): seq<Record>
  {
    RowsOf(rows, KeptSubjects(rows, nSubjects))
  }

  /** A strictly increasing sequence has as many elements as distinct values. */
  lemma {:induction false} IncreasingCardinality(s: seq<int>)
    requires Increasing(s)
    ensures |set x | x in s| == |s|
  {
    if |s| > 0 {
      var n := |s| - 1;
      IncreasingCardinality(s[..n]);
      var front := set x | x in s[..n];
      assert (set x | x in s) == front + {s[n]};
      assert s[n] !in front;
    }
  }

  /**
    The kept subjects are the first of the sorted distinct subjects: `n` of
    them for `n >= 0` (all, if there are fewer), all but the last `-n` for
    `n < 0`, all for `None`; and every kept subject is smaller than every
    dropped one.
  */
  lemma KeptAreSmallest(rows: seq<Record>, nSubjects: Option<int>)
    ensures var s := SortedSubjects(rows);
            var kept := KeptSubjects(rows, nSubjects);
            && |s| == |Subjects(rows)|
            && kept == s[..|kept|]
            && (nSubjects.None? ==> |kept| == |s|)
            && (nSubjects.Some? && nSubjects.value >= 0 ==>
                  |kept| == if nSubjects.value <= |s| then nSubjects.value else |s|)
            && (nSubjects.Some? && nSubjects.value < 0 ==>
                  |kept| == if |s| + nSubjects.value >= 0 then |s| + nSubjects.value else 0)
            && forall i, j :: 0 <= i < |kept| <= j < |s| ==> kept[i] < s[j]
  {
    var s := SortedSubjects(rows);
    IncreasingCardinality(s);
    assert (set x | x in s) == Subjects(rows);
    if nSubjects.Some? {
      SliceHead(s, nSubjects.value);
    }
  }

  /** A subject keeps all of its rows or none of them, and keeps them exactly when it is a kept subject. */
  lemma SelectedRows(rows: seq<Record>, nSubjects: Option<int>)
    ensures forall row :: row in SelectSubjects(rows, nSubjects) <==>
      row in rows && row.subject in KeptSubjects(rows, nSubjects)
    ensures Subjects(SelectSubjects(rows, nSubjects)) == set x | x in KeptSubjects(rows, nSubjects)
  {
    var kept := KeptSubjects(rows, nSubjects);
    var sel := SelectSubjects(rows, nSubjects);
    forall x | x in kept ensures x in Subjects(sel) {
      assert x in SortedSubjects(rows);
      var k :| 0 <= k < |rows| && rows[k].subject == x;
      assert rows[k] in sel;
      var j :| 0 <= j < |sel| && sel[j] == rows[k];
    }
    forall x | x in Subjects(sel) ensures x in kept {
      var k :| 0 <= k < |sel| && sel[k].subject == x;
      assert sel[k] in sel;
    }
  }

  /** `n_subjects=None` keeps every row. */
  lemma SelectAll(rows: seq<Record>)
    ensures SelectSubjects(rows, None) == rows
  {
    var s := SortedSubjects(rows);
    assert KeptSubjects(rows, None) == s by {
      assert s[0..|s|] == s;
    }
    forall k | 0 <= k < |rows| ensures rows[k].subject in s {
      assert rows[k].subject in Subjects(rows);
    }
    RowsOfAll(rows, s);
  }

  lemma {:induction false} RowsOfAll(rows: seq<Record>, keep: seq<int>)
    requires forall k :: 0 <= k < |rows| ==> rows[k].subject in keep
    ensures RowsOf(rows, keep) == rows
  {
    if |rows| > 0 {
      var n := |rows| - 1;
      RowsOfAll(rows[..n], keep);
      assert rows[..n] + [rows[n]] == rows;
    }
  }

  /** A whole level-1 fetcher: the loop over the paths, then the subject selection, laid out as the five lists. */
  method Fetch(paths: seq<string>, parse: string -> Parsed, nSubjects: Option<int>) returns (r: Result<Table, FetchError>)
    ensures Collected(paths, parse).Failure? ==> r == Failure(Collected(paths, parse).error)
    ensures Collected(paths, parse).Success? ==>
      r == Success(Tabulate(SelectSubjects(Collected(paths, parse).value, nSubjects)))
  {
    var collected := Collect(paths, parse);
    match collected
    case Failure(e) =>
      r := Failure(e);
    case Success(t) =>
      r := Success(Tabulate(SelectSubjects(t.Rows(), nSubjects)));
  }

  /** Every camcan row has a listed contrast, the task that contrast belongs to, and one of the globbed paths. */
  lemma CamcanRows(paths: seq<string>, nSubjects: Option<int>)
    requires Collected(paths, ParseCamcan).Success?
    ensures forall row :: row in SelectSubjects(Collected(paths, ParseCamcan).value, nSubjects) ==>
      && row.contrast in CamcanContrasts && row.task == CamcanTask(row.contrast)
      && row.direction == "level1" && row.zMap in paths
  {
    var rows := Collected(paths, ParseCamcan).value;
    CollectedRows(paths, ParseCamcan);
    SelectedRows(rows, nSubjects);
    forall row | row in SelectSubjects(rows, nSubjects)
      ensures row.contrast in CamcanContrasts && row.task == CamcanTask(row.contrast)
      ensures row.direction == "level1" && row.zMap in paths
    {
      var k :| 0 <= k < |paths| && ParseCamcan(paths[k]) == Success(Some(row));
    }
  }

  /** No brainomics row comes from a path with "vs" on its first line; every other path gives a localizer row. */
  lemma BrainomicsRows(paths: seq<string>, nSubjects: Option<int>)
    requires Collected(paths, ParseBrainomics).Success?
    ensures forall row :: row in SelectSubjects(Collected(paths, ParseBrainomics).value, nSubjects) ==>
      row.zMap in paths && !MatchesVs(row.zMap) && row.task == "localizer" && row.direction == "level1"
    ensures forall k :: 0 <= k < |paths| && !MatchesVs(paths[k]) ==>
      exists row :: row in Collected(paths, ParseBrainomics).value && row.zMap == paths[k]
  {
    var rows := Collected(paths, ParseBrainomics).value;
    CollectedRows(paths, ParseBrainomics);
    SelectedRows(rows, nSubjects);
    forall row | row in SelectSubjects(rows, nSubjects)
      ensures row.zMap in paths && !MatchesVs(row.zMap) && row.task == "localizer" && row.direction == "level1"
    {
      var k :| 0 <= k < |paths| && ParseBrainomics(paths[k]) == Success(Some(row));
    }
    forall k | 0 <= k < |paths| && !MatchesVs(paths[k])
      ensures exists row :: row in rows && row.zMap == paths[k]
    {
      var row := ParseBrainomics(paths[k]).value.value;
      assert row in rows;
    }
  }

  /** Every archi row has one of the thirty listed contrasts. */
  lemma ArchiRows(paths: seq<string>, nSubjects: Option<int>)
    requires Collected(paths, ParseArchi).Success?
    ensures forall row :: row in SelectSubjects(Collected(paths, ParseArchi).value, nSubjects) ==>
      row.contrast in ArchiContrasts && row.direction == "level1" && row.zMap in paths
  {
    var rows := Collected(paths, ParseArchi).value;
    CollectedRows(paths, ParseArchi);
    SelectedRows(rows, nSubjects);
    forall row | row in SelectSubjects(rows, nSubjects)
      ensures row.contrast in ArchiContrasts && row.direction == "level1" && row.zMap in paths
    {
      var k :| 0 <= k < |paths| && ParseArchi(paths[k]) == Success(Some(row));
    }
  }

  /** human_voice and la5c: a loop that does not fail has one row per path, in the order of the paths. */
  lemma UnfilteredRows(paths: seq<string>)
    requires Collected(paths, ParseUnfiltered).Success?
    ensures |Collected(paths, ParseUnfiltered).value| == |paths|
    ensures forall k :: 0 <= k < |paths| ==> Collected(paths, ParseUnfiltered).value[k].zMap == paths[k]
  {
    CollectedRows(paths, ParseUnfiltered);
    CollectedEveryPath(paths, ParseUnfiltered);
  }

  // ---------------------------------------------------------------------------
  // fetch_brainpedia

  /** An entry of a dataset directory, with the listing of its `model/model002/z_maps` directory. */
  datatype SubjectEntry = SubjectEntry(name: string, maps: seq<string>)

  /** An entry of the brainpedia directory, with the listing of that dataset directory. */
  datatype DatasetEntry = DatasetEntry(name: string, subjects: seq<SubjectEntry>)

  /** One element of `rec`: a level-2 file of one subject of one dataset. */
  datatype BrainpediaRecord =
    BrainpediaRecord(dataset: string, subject: int, task: int, contrast: string, direction: string, zMap: string)

  type Records = Result<seq<BrainpediaRecord>, FetchError>

  /**
    One loop over a directory listing: the records of each entry appended in
    listing order; the first entry that fails ends the loop with its error.
  */
  function Gathered<T>(entries: seq<T>, step: T -> Records): Records
  {
    if |entries| == 0 then Success([])
    else
      match Gathered(entries[..|entries| - 1], step)
      case Failure(e) => Failure(e)
      case Success(rs) =>
        match step(entries[|entries| - 1])
        case Failure(e) => Failure(e)
        case Success(more) => Success(rs + more)
  }

  /** One more entry: its records are appended, or its error ends the loop. */
  lemma GatheredNext<T>(entries: seq<T>, step: T -> Records, j: nat, rs: seq<BrainpediaRecord>)
    requires j < |entries| && Gathered(entries[..j], step) == Success(rs)
    ensures step(entries[j]).Failure? ==> Gathered(entries[..j + 1], step) == Failure(step(entries[j]).error)
    ensures step(entries[j]).Success? ==> Gathered(entries[..j + 1], step) == Success(rs + step(entries[j]).value)
  {
    assert entries[..j + 1][..j] == entries[..j];
  }

  /** Once a prefix of the listing fails, the whole loop fails with the same error. */
  lemma {:induction false} GatheredStops<T>(entries: seq<T>, step: T -> Records, k: nat)
    requires k <= |entries| && Gathered(entries[..k], step).Failure?
    ensures Gathered(entries, step) == Gathered(entries[..k], step)
  {
    if k < |entries| {
      var n := |entries| - 1;
      assert entries[..n][..k] == entries[..k];
      GatheredStops(entries[..n], step, k);
    } else {
      assert entries[..k] == entries;
    }
  }

  /** A loop that does not fail ran every entry successfully, and each of its records comes from one entry. */
  lemma {:induction false} GatheredFrom<T>(entries: seq<T>, step: T -> Records)
    requires Gathered(entries, step).Success?
    ensures forall k :: 0 <= k < |entries| ==> step(entries[k]).Success?
    ensures forall rec :: rec in Gathered(entries, step).value ==>
      exists k :: 0 <= k < |entries| && rec in step(entries[k]).value
  {
    if |entries| > 0 {
      var n := |entries| - 1;
      var front := entries[..n];
      GatheredFrom(front, step);
      forall k | 0 <= k < n ensures step(entries[k]).Success? {
        assert entries[k] == front[k];
      }
      forall rec | rec in Gathered(entries, step).value
        ensures exists k :: 0 <= k < |entries| && rec in step(entries[k]).value
      {
        if rec in Gathered(front, step).value {
          var k :| 0 <= k < n && rec in step(front[k]).value;
          assert entries[k] == front[k];
        }
      }
    }
  }

  /** When every entry gives exactly one record, the loop gives one record per entry, in listing order. */
  lemma {:induction false} GatheredOneEach<T>(entries: seq<T>, step: T -> Records)
    requires forall k :: 0 <= k < |entries| ==> step(entries[k]).Success? && |step(entries[k]).value| == 1
    ensures Gathered(entries, step).Success? && |Gathered(entries, step).value| == |entries|
    ensures forall k :: 0 <= k < |entries| ==> Gathered(entries, step).value[k] == step(entries[k]).value[0]
  {
    if |entries| > 0 {
      var n := |entries| - 1;
      var front := entries[..n];
      forall k | 0 <= k < n ensures step(front[k]).Success? && |step(front[k]).value| == 1 {
        assert entries[k] == front[k];
      }
      GatheredOneEach(front, step);
      forall k | 0 <= k < n ensures Gathered(front, step).value[k] == step(entries[k]).value[0] {
        assert entries[k] == front[k];
      }
    }
  }

  /** Entries that give no record can be dropped from the listing without changing the loop. */
  lemma {:induction false} GatheredSkipsEmpty<T>(entries: seq<T>, step: T -> Records, kept: seq<T>)
    requires kept == Kept(entries, step)
    ensures Gathered(kept, step) == Gathered(entries, step)
  {
    if |entries| > 0 {
      var n := |entries| - 1;
      var e := entries[n];
      var k' := Kept(entries[..n], step);
      GatheredSkipsEmpty(entries[..n], step, k');
      if step(e) == Success([]) {
        assert kept == k';
        var g := Gathered(entries[..n], step);
        if g.Success? {
          assert g.value + [] == g.value;
        }
      } else {
        assert (k' + [e])[..|k'|] == k';
      }
    }
  }

  /** The entries that do not give the empty result. */
  function Kept<T>(entries: seq<T>, step: T -> Records): seq<T>
  {
    if |entries| == 0 then []
    else
      var e := entries[|entries| - 1];
      Kept(entries[..|entries| - 1], step) + (if step(e) == Success([]) then [] else [e])
  }

  /** The map directory of a subject entry: `<dataset_dir>/<entry>/model/model002/z_maps`. */
  function SubjectDir(datasetDir: string, name: string): string
  {
    JoinAll(datasetDir, [name, "model", "model002", "z_maps"])
  }

  /**
    One map file: the task is the integer in its characters 5 to 7, the
    contrast what lies between its 9th and its last 7 characters, the path
    the file joined onto the subject's map directory.
  */
  function MapRecord(dataset: string, subject: int, subjectDir: string, file: string): (r: Result<BrainpediaRecord, FetchError>)
    ensures r.Failure? <==> ParseInt(PySlice(file, Some(4), Some(7))).None?
    ensures r.Success? ==>
      && ParseInt(PySlice(file, Some(4), Some(7))) == Some(r.value.task)
      && r.value.contrast == PySlice(file, Some(8), Some(-7))
      && r.value.dataset == dataset && r.value.subject == subject
      && r.value.direction == "level2" && r.value.zMap == Join(subjectDir, file)
  {
    var text := PySlice(file, Some(4), Some(7));
    match ParseInt(text)
    case None => Failure(BadInteger(text))
    case Some(task) =>
      Success(BrainpediaRecord(dataset, subject, task, PySlice(file, Some(8), Some(-7)), "level2", Join(subjectDir, file)))
  }

  /** The innermost loop's body, for one file of a subject's map directory. */
  function MapStep(dataset: string, subject: int, subjectDir: string): string -> Records
  {
    file => match MapRecord(dataset, subject, subjectDir, file)
            case Failure(e) => Failure(e)
            case Success(rec) => Success([rec])
  }

  /** The middle loop's body: 'models' is skipped, any other name gives the subject from its 4th character on. */
  function SubjectRecords(dataset: string, datasetDir: string, entry: SubjectEntry): Records
  {
    if entry.name == "models" then Success([])
    else
      match ParseSubject(PySlice(entry.name, Some(3), None))
      case Failure(e) => Failure(e)
      case Success(subject) => Gathered(entry.maps, MapStep(dataset, subject, SubjectDir(datasetDir, entry.name)))
  }

  function SubjectStep(dataset: string, datasetDir: string): SubjectEntry -> Records
  {
    entry => SubjectRecords(dataset, datasetDir, entry)
  }

  /** The outer loop's body: a dataset's entries, under `<source_dir>/<dataset>`. */
  function DatasetStep(sourceDir: string): DatasetEntry -> Records
  {
    (d: DatasetEntry) => Gathered(d.subjects, SubjectStep(d.name, Join(sourceDir, d.name)))
  }

  /** The records of every listing loop, unless there are none: then the frame has no index columns. */
  function BrainpediaRecords(sourceDir: string, datasets: seq<DatasetEntry>): Records
  {
    match Gathered(datasets, DatasetStep(sourceDir))
    case Failure(e) => Failure(e)
    case Success(rec) => if |rec| == 0 then Failure(NoRecords) else Success(rec)
  }

  /**
    The outer loop of `fetch_brainpedia`, over the dataset directories,
    appending to `rec`, and the frame built from `rec`.
  */
  method FetchBrainpedia(sourceDir: string, datasets: seq<DatasetEntry>) returns (r: Records)
    ensures r == BrainpediaRecords(sourceDir, datasets)
    ensures Gathered(datasets, DatasetStep(sourceDir)).Failure? ==> r == Gathered(datasets, DatasetStep(sourceDir))
    ensures Gathered(datasets, DatasetStep(sourceDir)) == Success([]) ==> r == Failure(NoRecords)
    ensures r.Success? ==> Gathered(datasets, DatasetStep(sourceDir)) == r && |r.value| > 0
  {
    var rec: seq<BrainpediaRecord> := [];
    for i := 0 to |datasets|
      invariant Gathered(datasets[..i], DatasetStep(sourceDir)) == Success(rec)
    {
      var dataset := datasets[i];
      var gathered := FetchSubjects(dataset.name, Join(sourceDir, dataset.name), dataset.subjects);
      GatheredNext(datasets, DatasetStep(sourceDir), i, rec);
      match gathered {
        case Failure(e) =>
          GatheredStops(datasets, DatasetStep(sourceDir), i + 1);
          return Failure(e);
        case Success(more) =>
          rec := rec + more;
      }
    }
    assert datasets[..|datasets|] == datasets;
    if |rec| == 0 {
      return Failure(NoRecords);
    }
    r := Success(rec);
  }

  /** The middle loop, over the entries of one dataset directory. */
  method FetchSubjects(dataset: string, datasetDir: string, subjects: seq<SubjectEntry>) returns (r: Records)
    ensures r == Gathered(subjects, SubjectStep(dataset, datasetDir))
  {
    var rec: seq<BrainpediaRecord> := [];
    for j := 0 to |subjects|
      invariant Gathered(subjects[..j], SubjectStep(dataset, datasetDir)) == Success(rec)
    {
      var entry := subjects[j];
      var got: Records;
      if entry.name == "models" {
        got := Success([]);
      } else {
        match ParseSubject(PySlice(entry.name, Some(3), None)) {
          case Failure(e) =>
            got := Failure(e);
          case Success(subject) =>
            got := FetchMaps(dataset, subject, SubjectDir(datasetDir, entry.name), entry.maps);
        }
      }
      assert got == SubjectStep(dataset, datasetDir)(entry);
      GatheredNext(subjects, SubjectStep(dataset, datasetDir), j, rec);
      match got {
        case Failure(e) =>
          GatheredStops(subjects, SubjectStep(dataset, datasetDir), j + 1);
          return Failure(e);
        case Success(more) =>
          rec := rec + more;
      }
    }
    assert subjects[..|subjects|] == subjects;
    r := Success(rec);
  }

  /** The inner loop, over the map files of one subject. */
  method FetchMaps(dataset: string, subject: int, subjectDir: string, maps: seq<string>) returns (r: Records)
    ensures r == Gathered(maps, MapStep(dataset, subject, subjectDir))
  {
    var rec: seq<BrainpediaRecord> := [];
    for m := 0 to |maps|
      invariant Gathered(maps[..m], MapStep(dataset, subject, subjectDir)) == Success(rec)
    {
      GatheredNext(maps, MapStep(dataset, subject, subjectDir), m, rec);
      match MapRecord(dataset, subject, subjectDir, maps[m]) {
        case Failure(e) =>
          GatheredStops(maps, MapStep(dataset, subject, subjectDir), m + 1);
          return Failure(e);
        case Success(record) =>
          rec := rec + [record];
      }
    }
    assert maps[..|maps|] == maps;
    r := Success(rec);
  }

  /** A subject whose map files all parse contributes one record per file, in listing order. */
  lemma OneRecordPerMap(dataset: string, subject: int, subjectDir: string, maps: seq<string>)
    requires forall k :: 0 <= k < |maps| ==> ParseInt(PySlice(maps[k], Some(4), Some(7))).Some?
    ensures Gathered(maps, MapStep(dataset, subject, subjectDir)).Success?
    ensures |Gathered(maps, MapStep(dataset, subject, subjectDir)).value| == |maps|
    ensures forall k :: 0 <= k < |maps| ==>
      Success(Gathered(maps, MapStep(dataset, subject, subjectDir)).value[k]) == MapRecord(dataset, subject, subjectDir, maps[k])
  {
    GatheredOneEach(maps, MapStep(dataset, subject, subjectDir));
  }

  /** Where a record comes from: an entry other than 'models' and one map file in its listing. */
  predicate FromSubject(rec: BrainpediaRecord, datasetDir: string, entry: SubjectEntry)
  {
    && entry.name != "models"
    && ParseSubject(PySlice(entry.name, Some(3), None)) == Success(rec.subject)
    && exists file :: file in entry.maps && MapRecord(rec.dataset, rec.subject, SubjectDir(datasetDir, entry.name), file) == Success(rec)
  }

  lemma SubjectProvenance(dataset: string, datasetDir: string, entry: SubjectEntry)
    requires SubjectRecords(dataset, datasetDir, entry).Success?
    ensures forall rec :: rec in SubjectRecords(dataset, datasetDir, entry).value ==>
      rec.dataset == dataset && FromSubject(rec, datasetDir, entry)
  {
    if entry.name != "models" {
      var subject := ParseSubject(PySlice(entry.name, Some(3), None)).value;
      var dir := SubjectDir(datasetDir, entry.name);
      var step := MapStep(dataset, subject, dir);
      assert SubjectRecords(dataset, datasetDir, entry) == Gathered(entry.maps, step);
      GatheredFrom(entry.maps, step);
      forall rec | rec in Gathered(entry.maps, step).value
        ensures rec.dataset == dataset && FromSubject(rec, datasetDir, entry)
      {
        var k :| 0 <= k < |entry.maps| && rec in step(entry.maps[k]).value;
        MapProvenance(dataset, subject, dir, entry.maps[k], rec);
        assert entry.maps[k] in entry.maps;
      }
    }
  }

  /** A record of one map file is that file's `MapRecord`, with the dataset and subject it was given. */
  lemma MapProvenance(dataset: string, subject: int, dir: string, file: string, rec: BrainpediaRecord)
    requires MapStep(dataset, subject, dir)(file).Success? && rec in MapStep(dataset, subject, dir)(file).value
    ensures MapRecord(dataset, subject, dir, file) == Success(rec)
    ensures rec.dataset == dataset && rec.subject == subject
  {
  }

  /**
    Every brainpedia record is a level-2 record of one listed dataset, of a
    subject entry other than 'models' whose name gives its subject number,
    and of one map file of that subject, which gives its task, its contrast
    and its path.
  */
  lemma BrainpediaProvenance(sourceDir: string, datasets: seq<DatasetEntry>)
    requires BrainpediaRecords(sourceDir, datasets).Success?
    ensures forall rec :: rec in BrainpediaRecords(sourceDir, datasets).value ==>
      && rec.direction == "level2"
      && exists d, e :: d in datasets && e in d.subjects && d.name == rec.dataset &&
           FromSubject(rec, Join(sourceDir, d.name), e)
  {
    var outer := DatasetStep(sourceDir);
    GatheredFrom(datasets, outer);
    forall rec | rec in BrainpediaRecords(sourceDir, datasets).value
      ensures rec.direction == "level2"
      ensures exists d, e :: d in datasets && e in d.subjects && d.name == rec.dataset &&
                FromSubject(rec, Join(sourceDir, d.name), e)
    {
      var i :| 0 <= i < |datasets| && rec in outer(datasets[i]).value;
      var d := datasets[i];
      var datasetDir := Join(sourceDir, d.name);
      var inner := SubjectStep(d.name, datasetDir);
      GatheredFrom(d.subjects, inner);
      var j :| 0 <= j < |d.subjects| && rec in inner(d.subjects[j]).value;
      var e := d.subjects[j];
      SubjectProvenance(d.name, datasetDir, e);
      var file :| file in e.maps && MapRecord(rec.dataset, rec.subject, SubjectDir(datasetDir, e.name), file) == Success(rec);
      assert d in datasets && e in d.subjects;
    }
  }

  /** Dropping the 'models' entries from a dataset listing changes nothing, whatever they hold. */
  lemma ModelsEntriesIgnored(dataset: string, datasetDir: string, entries: seq<SubjectEntry>)
    ensures forall e :: e in Kept(entries, SubjectStep(dataset, datasetDir)) ==> e.name != "models"
    ensures Gathered(Kept(entries, SubjectStep(dataset, datasetDir)), SubjectStep(dataset, datasetDir)) ==
            Gathered(entries, SubjectStep(dataset, datasetDir))
  {
    var step := SubjectStep(dataset, datasetDir);
    KeptNonEmpty(entries, step);
    GatheredSkipsEmpty(entries, step, Kept(entries, step));
  }

  lemma {:induction false} KeptNonEmpty<T>(entries: seq<T>, step: T -> Records)
    ensures forall e :: e in Kept(entries, step) ==> step(e) != Success([])
  {
    if |entries| > 0 {
      KeptNonEmpty(entries[..|entries| - 1], step);
    }
  }
}
