/**
 * Scan files: the JSON documents a scan writes, the combination of the 0° and 90° scans of
 * one board, and the choice of which files to display for a given name.
 *
 * The file system is a map from path to parsed content; a path that is not a key does not exist.
 */
module FileUtils {
  import opened Wrappers
  import opened Numeric
  import opened PyStrings

  /** One scan point; the strength is absent where a file holds `null`. */
  datatype Point = Point(x: real, y: real, fieldStrength: Option<real>)

  /** A metadata value: a number, or the (width, height) pair stored under "PCB_SIZE". */
  datatype MetaValue = MetaNum(n: real) | MetaSize(width: real, height: real)

  type Metadata = map<string, MetaValue>

  /** The content of a scan file. */
  datatype JsonFile =
    | Object(metadata: Option<Metadata>, results: Option<seq<Point>>)  // a JSON object; None: key absent
    | Array(points: seq<Point>)                                          // a bare JSON list of points
    | NotJson                                                            // content json.load rejects

  type FileStore = map<string, JsonFile>

  /** A scan as held in memory: its metadata and its points. */
  datatype ScanData = ScanData(metadata: Metadata, results: seq<Point>)

  /** Python truthiness of a dict or list loaded from JSON. */
  predicate Truthy(f: JsonFile) {
    match f
    case Object(m, r) => m.Some? || r.Some?
    case Array(ps) => |ps| > 0
    case NotJson => true
  }

  /**
   * save_scan_results: writes {"metadata": metadata or {}, "results": results}. When the
   * file cannot be opened for writing the error is reported and swallowed: nothing changes.
   */
  function SaveScanResults(fs: FileStore, path: string, results: seq<Point>,
                           metadata: Option<Metadata>, writable: bool): (fs': FileStore)
    ensures writable ==> path in fs' && fs'[path] == Object(Some(metadata.GetOr(map[])), Some(results))
    ensures !writable ==> fs' == fs
    ensures forall p :: p != path ==> (p in fs' <==> p in fs) && (p in fs ==> fs'[p] == fs[p])
  {
    if writable then fs[path := Object(Some(metadata.GetOr(map[])), Some(results))] else fs
  }

  /** `open(path)` followed by `json.load`. */
  function ReadJson(fs: FileStore, path: string): (r: Result<JsonFile>)
    ensures r.Ok? <==> path in fs && !fs[path].NotJson?
    ensures r.Err? ==> r.error == (if path in fs then JsonDecodeError else FileNotFound)
    ensures r.Ok? ==> r.value == fs[path]
  {
    if path !in fs then Err(FileNotFound)
    else if fs[path].NotJson? then Err(JsonDecodeError)
    else Ok(fs[path])
  }

  /** `data["results"]`: a list cannot be indexed by a string, an object may lack the key. */
  function ResultsOf(d: JsonFile): (r: Result<seq<Point>>)
    requires !d.NotJson?
    ensures d.Object? && d.results.Some? <==> r.Ok?
    ensures r.Ok? ==> r.value == d.results.value
    ensures d.Array? ==> r == Err(TypeError)
  {
    match d
    case Object(_, rs) => if rs.Some? then Ok(rs.value) else Err(KeyError)
    case Array(_) => Err(TypeError)
  }

  /** `data["metadata"]`, with the same two ways to fail. */
  function MetadataOf(d: JsonFile): (r: Result<Metadata>)
    requires !d.NotJson?
    ensures d.Object? && d.metadata.Some? <==> r.Ok?
    ensures r.Ok? ==> r.value == d.metadata.value
  {
    match d
    case Object(m, _) => if m.Some? then Ok(m.value) else Err(KeyError)
    case Array(_) => Err(TypeError)
  }

  /** The field strengths as a numeric numpy array; a null strength makes the division raise. */
  function Strengths(ps: seq<Point>): (r: Result<seq<real>>)
    ensures r.Ok? <==> forall i :: 0 <= i < |ps| ==> ps[i].fieldStrength.Some?
    ensures r.Ok? ==> |r.value| == |ps| && forall i :: 0 <= i < |ps| ==> r.value[i] == ps[i].fieldStrength.value
    ensures r.Err? ==> r.error == TypeError
  {
    if |ps| == 0 then Ok([])
    else if ps[0].fieldStrength.None? then Err(TypeError)
    else match Strengths(ps[1..])
      case Ok(rest) => Ok([ps[0].fieldStrength.value] + rest)
      case Err(e) => Err(e)
  }

  /** numpy broadcasting of two one-dimensional arrays of lengths n and m. */
  predicate Broadcastable(n: nat, m: nat) {
    n == m || n == 1 || m == 1
  }

  /** The length of the broadcast result. */
  function BroadcastLength(n: nat, m: nat): (l: nat)
    requires Broadcastable(n, m)
    ensures n == m ==> l == n
    ensures n != 1 ==> l == n
    ensures n == 1 ==> l == m
  {
    if n == 1 then m else n
  }

  /** Index into an array of length n after broadcasting: a one-element array repeats its value. */
  function BroadcastIndex(n: nat, i: nat): nat {
    if n == 1 then 0 else i
  }

  /** 10*log10(sqrt(P0^2 + P90^2)) with P = 10^(dBm/10). */
  function CombinedDbm(t: Transcendental, dbm0: real, dbm90: real): real {
    10.0 * t.log10(Magnitude(t, Linear(t, dbm0), Linear(t, dbm90)))
  }

  /** The combined point at index i of the 0° results. */
  function CombinedPoint(t: Transcendental, r0: seq<Point>, p0: seq<real>, p90: seq<real>, i: nat): Point
    requires i < |r0| && Broadcastable(|p0|, |p90|) && i < BroadcastLength(|p0|, |p90|)
    requires |p0| == |r0|
  {
    Point(r0[i].x, r0[i].y, Some(CombinedDbm(t, p0[BroadcastIndex(|p0|, i)], p90[BroadcastIndex(|p90|, i)])))
  }

  /** What combine_scans returns or raises, for the files held in `fs`. */
  function Combine(t: Transcendental, fs: FileStore, file0: string, file90: string): (r: Result<ScanData>)
  {
    var d0 :- ReadJson(fs, file0);
    var d90 :- ReadJson(fs, file90);
    var r0 :- ResultsOf(d0);
    var p0 :- Strengths(r0);
    var r90 :- ResultsOf(d90);
    var p90 :- Strengths(r90);
    if !Broadcastable(|p0|, |p90|) then Err(ValueError)
    else if |r0| > BroadcastLength(|p0|, |p90|) then Err(IndexError)
    else
      var meta :- MetadataOf(d0);
      Ok(ScanData(meta, seq(|r0|, i requires 0 <= i < |r0| => CombinedPoint(t, r0, p0, p90, i))))
  }

  /**
   * combine_scans: the vectorised conversions, then the loop that appends one combined
   * point per 0° result.
   */
  method CombineScans(t: Transcendental, fs: FileStore, file0: string, file90: string)
    returns (r: Result<ScanData>)
    ensures r == Combine(t, fs, file0, file90)
  {
    var d0 :- ReadJson(fs, file0);
    var d90 :- ReadJson(fs, file90);
    var r0 :- ResultsOf(d0);
    var p0 :- Strengths(r0);
    var r90 :- ResultsOf(d90);
    var p90 :- Strengths(r90);
    if !Broadcastable(|p0|, |p90|) {
      return Err(ValueError);
    }
    var combinedResults: seq<Point> := [];
    var i := 0;
    while i < |r0|
      invariant 0 <= i <= |r0|
      invariant i <= BroadcastLength(|p0|, |p90|)
      invariant |combinedResults| == i
      invariant forall j :: 0 <= j < i ==> combinedResults[j] == CombinedPoint(t, r0, p0, p90, j)
    {
      if i >= BroadcastLength(|p0|, |p90|) {
        return Err(IndexError);
      }
      combinedResults := combinedResults + [CombinedPoint(t, r0, p0, p90, i)];
      i := i + 1;
    }
    assert |r0| <= BroadcastLength(|p0|, |p90|);
    assert combinedResults == seq(|r0|, j requires 0 <= j < |r0| => CombinedPoint(t, r0, p0, p90, j));
    var meta :- MetadataOf(d0);
    r := Ok(ScanData(meta, combinedResults));
  }

  /** The combination keeps the 0° scan's metadata and has one point per 0° result, in order. */
  lemma CombineShape(t: Transcendental, fs: FileStore, file0: string, file90: string)
    requires Combine(t, fs, file0, file90).Ok?
    ensures file0 in fs && fs[file0].Object? && fs[file0].results.Some? && fs[file0].metadata.Some?
    ensures var r0 := fs[file0].results.value;
      var out := Combine(t, fs, file0, file90).value;
      out.metadata == fs[file0].metadata.value
      && |out.results| == |r0|
      && forall i :: 0 <= i < |r0| ==>
           out.results[i].x == r0[i].x && out.results[i].y == r0[i].y
           && out.results[i].fieldStrength.Some?
  {
  }

  /** The 90° points are paired by position alone: their coordinates are never read. */
  lemma {:induction false} CombineIgnores90Coordinates(t: Transcendental, fs: FileStore, file0: string,
                                                       file90: string, moved: seq<Point>)
    requires file0 != file90
    requires file90 in fs && fs[file90].Object? && fs[file90].results.Some?
    requires |moved| == |fs[file90].results.value|
    requires forall i :: 0 <= i < |moved| ==>
      moved[i].fieldStrength == fs[file90].results.value[i].fieldStrength
    ensures Combine(t, fs[file90 := Object(fs[file90].metadata, Some(moved))], file0, file90)
         == Combine(t, fs, file0, file90)
  {
    var fs2 := fs[file90 := Object(fs[file90].metadata, Some(moved))];
    assert ReadJson(fs2, file0) == ReadJson(fs, file0);
    var orig := fs[file90].results.value;
    assert Strengths(moved) == Strengths(orig) by {
      StrengthsOnlyReadStrengths(moved, orig);
    }
  }

  /** Two point lists with the same strengths give the same numeric array. */
  lemma {:induction false} StrengthsOnlyReadStrengths(a: seq<Point>, b: seq<Point>)
    requires |a| == |b|
    requires forall i :: 0 <= i < |a| ==> a[i].fieldStrength == b[i].fieldStrength
    ensures Strengths(a) == Strengths(b)
  {
    if |a| > 0 {
      StrengthsOnlyReadStrengths(a[1..], b[1..]);
    }
  }

  /** Scans of different lengths fail with numpy's shape error unless one has a single point. */
  lemma CombineMismatchFails(t: Transcendental, fs: FileStore, file0: string, file90: string)
    requires file0 in fs && fs[file0].Object? && fs[file0].results.Some?
    requires file90 in fs && fs[file90].Object? && fs[file90].results.Some?
    requires Strengths(fs[file0].results.value).Ok? && Strengths(fs[file90].results.value).Ok?
    requires var n, m := |fs[file0].results.value|, |fs[file90].results.value|;
      n != m && n != 1 && m != 1
    ensures Combine(t, fs, file0, file90) == Err(ValueError)
  {
  }

  /** A 90° scan with a single point is broadcast: every 0° point is combined with it. */
  lemma CombineBroadcastsSingle90(t: Transcendental, fs: FileStore, file0: string, file90: string)
    requires Combine(t, fs, file0, file90).Ok?
    requires |fs[file90].results.value| == 1
    ensures var r0 := fs[file0].results.value;
      var v90 := fs[file90].results.value[0].fieldStrength.value;
      forall i :: 0 <= i < |r0| ==>
        Combine(t, fs, file0, file90).value.results[i].fieldStrength
          == Some(CombinedDbm(t, r0[i].fieldStrength.value, v90))
  {
    var r0 := fs[file0].results.value;
    var out := Combine(t, fs, file0, file90).value;
    forall i | 0 <= i < |r0|
      ensures out.results[i].fieldStrength
        == Some(CombinedDbm(t, r0[i].fieldStrength.value, fs[file90].results.value[0].fieldStrength.value))
    {
      if |r0| == 1 {
        assert i == 0;
      }
    }
  }

  /** A missing 0° file is reported before anything else is read. */
  lemma CombineMissingFile(t: Transcendental, fs: FileStore, file0: string, file90: string)
    requires file0 !in fs
    ensures Combine(t, fs, file0, file90) == Err(FileNotFound)
  {
  }

  /** What display_scan returns: the primary file, the secondary file and whether both exist. */
  datatype DisplayChoice = DisplayChoice(primary: Option<string>, secondary: Option<string>, both: bool)

  /** The 0° candidate for a scan name: the text before its last ".json", then "_0d.json". */
  function Candidate0(fileName: string): string {
    RSplitHead(fileName, ".json") + "_0d.json"
  }

  function Candidate90(fileName: string): string {
    RSplitHead(fileName, ".json") + "_90d.json"
  }

  /** display_scan: both orientation files, else the named file, else nothing. */
  function DisplayScan(fs: FileStore, fileName: string): (c: DisplayChoice)
    ensures c.both <==> Candidate0(fileName) in fs && Candidate90(fileName) in fs
    ensures c.both ==> c.primary == Some(Candidate0(fileName)) && c.secondary == Some(Candidate90(fileName))
    ensures !c.both ==> c.secondary.None? && (c.primary.Some? <==> fileName in fs)
    ensures !c.both && c.primary.Some? ==> c.primary.value == fileName
  {
    var file0 := Candidate0(fileName);
    var file90 := Candidate90(fileName);
    if file0 in fs && file90 in fs then DisplayChoice(Some(file0), Some(file90), true)
    else if fileName in fs then DisplayChoice(Some(fileName), None, false)
    else DisplayChoice(None, None, false)
  }

  /** For a name ending in ".json", the candidates replace exactly that last ".json". */
  lemma CandidatesOfJsonName(base: string)
    ensures Candidate0(base + ".json") == base + "_0d.json"
    ensures Candidate90(base + ".json") == base + "_90d.json"
  {
    RSplitHeadOfSuffixed(base, ".json");
  }

  /** A lone orientation file is ignored: without its partner only the named file is considered. */
  lemma DisplayScanIgnoresLoneFile(fs: FileStore, base: string)
    requires base + "_0d.json" in fs && base + "_90d.json" !in fs
    ensures DisplayScan(fs, base + ".json")
         == if base + ".json" in fs then DisplayChoice(Some(base + ".json"), None, false)
            else DisplayChoice(None, None, false)
  {
    CandidatesOfJsonName(base);
  }
}
