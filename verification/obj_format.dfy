/**
 * The Wavefront OBJ reader of `wavefront.cpp` as a specification: its
 * capacity limits, how a line is cut from the resource, what each kind of
 * line does to the loader's state, and the fold of that over the whole
 * resource. `ObjLoader` proves the loader's loops against these functions.
 */
module ObjFormat {
  import opened Geometry
  import opened CStrings

  const MAX_VERTEX_COUNT: int := 100000
  const MAX_OBJ_COUNT: int := 1000
  const MAX_NAME_LENGTH: int := 64
  const MAX_POLYGON_LENGTH: int := 32
  const MAX_LINE_LENGTH: int := 256
  const MAX_MATERIAL_GROUP_COUNT: int := 64
  /** Capacity of the index list a face line is parsed into. */
  const MAX_FACE_INDEX_COUNT: int := MAX_POLYGON_LENGTH * 3

  const OBJECT_TAG: seq<char> := "o "
  const POSITION_TAG: seq<char> := "v "
  const NORMAL_TAG: seq<char> := "vn "
  const UV_TAG: seq<char> := "vt "
  const FACE_TAG: seq<char> := "f "
  const MATERIAL_LIB_TAG: seq<char> := "mtllib "
  const USE_MATERIAL_TAG: seq<char> := "usemtl "

  datatype Option<T> = None | Some(value: T)

  /**
   * A vertex attribute copied into the mesh. `Undefined` when the face names
   * a slot that no line filled: the source then reads uninitialised or
   * out-of-range memory.
   */
  datatype Attr<T> = Fetched(value: T) | Undefined

  /** The loader's local storage: the `v`, `vn` and `vt` values in file order. */
  datatype Attributes = Attributes(positions: seq<Vec3>, normals: seq<Vec3>, uvs: seq<Vec2>)

  /** The output `wavefront_t`, one entry per vertex or name. */
  datatype MeshData = MeshData(
    positions: seq<Attr<Vec3>>,
    normals: seq<Attr<Vec3>>,
    uvs: seq<Attr<Vec2>>,
    objNames: seq<seq<char>>,
    materialLib: Option<seq<char>>,
    groupMaterials: seq<seq<char>>,
    groupOffsets: seq<int>)

  /** Everything the line loop of `load_wavefront` carries from line to line. */
  datatype Load = Load(mesh: MeshData, attrs: Attributes, errors: int)

  /** What one `sscanf` call returns (`count`) and leaves in its outputs. */
  datatype Scan3 = Scan3(count: int, value: Vec3)
  datatype Scan2 = Scan2(count: int, value: Vec2)

  /**
   * The float scanners of the `v`, `vn` and `vt` lines, left abstract: each
   * maps the line to its conversion count and values.
   */
  datatype Scanners = Scanners(position: seq<char> -> Scan3, normal: seq<char> -> Scan3, uv: seq<char> -> Scan2)

  const EmptyMesh: MeshData := MeshData([], [], [], [], None, [], [])
  const Start: Load := Load(EmptyMesh, Attributes([], [], []), 0)

  // ---------------------------------------------------------------------
  // Cutting a line from the resource

  /**
   * Where the line-loading loop stops when it starts at `cursor` and gives up
   * after `limit` characters: at the end of the data, at a newline, or at
   * the limit, whichever comes first.
   */
  function LineEnd(data: seq<char>, cursor: nat, limit: nat): (i: nat)
    requires cursor <= |data|
    ensures cursor + i <= |data| && i <= limit
    ensures forall k :: cursor <= k < cursor + i ==> data[k] != '\n'
    ensures cursor + i == |data| || data[cursor + i] == '\n' || i == limit
  {
    ScanLine(data, cursor, 0, limit)
  }

  function ScanLine(data: seq<char>, cursor: nat, i: nat, limit: nat): (j: nat)
    requires cursor + i <= |data| && i <= limit
    requires forall k :: cursor <= k < cursor + i ==> data[k] != '\n'
    ensures i <= j <= limit && cursor + j <= |data|
    ensures forall k :: cursor <= k < cursor + j ==> data[k] != '\n'
    ensures cursor + j == |data| || data[cursor + j] == '\n' || j == limit
    decreases |data| - i
  {
    if cursor + i == |data| || data[cursor + i] == '\n' || i == limit then i
    else ScanLine(data, cursor, i + 1, limit)
  }

  /** The three stopping conditions pin the stopping place down. */
  lemma LineEndUnique(data: seq<char>, cursor: nat, limit: nat, j: nat)
    requires cursor + j <= |data| && j <= limit
    requires forall k :: cursor <= k < cursor + j ==> data[k] != '\n'
    requires cursor + j == |data| || data[cursor + j] == '\n' || j == limit
    ensures j == LineEnd(data, cursor, limit)
  {
  }

  /**
   * The terminator index of the line loop as written: it only gives up once
   * `i >= MAX_LINE_LENGTH`, so `line[i] = '\0'` can land one past the
   * 256-character buffer.
   */
  function TerminatorIndexAsWritten(data: seq<char>, cursor: nat): (i: nat)
    requires cursor <= |data|
    ensures i <= MAX_LINE_LENGTH
  {
    LineEnd(data, cursor, MAX_LINE_LENGTH)
  }

  /** A line of 300 letters makes the loop as written terminate at index 256. */
  lemma OverlongLineOverrunsAsWritten()
    ensures TerminatorIndexAsWritten(seq(300, _ => 'a'), 0) == MAX_LINE_LENGTH
  {
    var data: seq<char> := seq(300, _ => 'a');
    var i := TerminatorIndexAsWritten(data, 0);
    assert data[i] == 'a' by {
      assert i < 300;
    }
  }

  /**
   * How many characters the corrected loop copies: it gives up at
   * `MAX_LINE_LENGTH - 1`, leaving room for the terminator.
   */
  function LineLength(data: seq<char>, cursor: nat): (i: nat)
    requires cursor <= |data|
    ensures i < MAX_LINE_LENGTH && cursor + i <= |data|
  {
    LineEnd(data, cursor, MAX_LINE_LENGTH - 1)
  }

  /**
   * A line of exactly 256 characters: as written the terminator lands at
   * index 256; corrected, the line is its first 255 characters, the 256th is
   * skipped, and the cursor stops at the newline.
   */
  lemma ExactLineCut()
    ensures var data := seq(256, _ => 'a') + ['\n'];
      && TerminatorIndexAsWritten(data, 0) == MAX_LINE_LENGTH
      && LineLength(data, 0) == MAX_LINE_LENGTH - 1
      && NextCursor(data, 0) == MAX_LINE_LENGTH
      && data[NextCursor(data, 0)] == '\n'
  {
    var data: seq<char> := seq(256, _ => 'a') + ['\n'];
    assert forall k :: 0 <= k < MAX_LINE_LENGTH ==> data[k] == 'a';
  }

  /** The string the line buffer holds once the line at `cursor` is loaded. */
  function LineAt(data: seq<char>, cursor: nat): (t: seq<char>)
    requires cursor <= |data|
    ensures NUL !in t && |t| < MAX_LINE_LENGTH
  {
    CStr(data[cursor..cursor + LineLength(data, cursor)])
  }

  /**
   * The cursor after the line at `cursor`: one past the character the loop
   * stopped at, which is dropped (the newline, or the character that
   * overflowed the buffer).
   */
  function NextCursor(data: seq<char>, cursor: nat): (next: nat)
    requires cursor < |data|
    ensures cursor < next <= |data|
  {
    var i := LineLength(data, cursor);
    if cursor + i + 1 <= |data| then cursor + i + 1 else |data|
  }

  /** The lines the loop loads from `cursor` to the end of the data. */
  function Lines(data: seq<char>, cursor: nat): seq<seq<char>>
    requires cursor <= |data|
    decreases |data| - cursor
  {
    if cursor == |data| then [] else [LineAt(data, cursor)] + Lines(data, NextCursor(data, cursor))
  }

  // ---------------------------------------------------------------------
  // Names

  /** The string after the `k`-character tag a line starts with. */
  function After(t: seq<char>, k: nat): seq<char>
  {
    if k <= |t| then t[k..] else []
  }

  /** `snprintf(name, MAX_NAME_LENGTH, "%s", line + k)`. */
  function Name(t: seq<char>, k: nat): (name: seq<char>)
    ensures |name| < MAX_NAME_LENGTH && NUL !in name
    ensures name <= CStr(After(t, k))
  {
    SnprintfS(After(t, k), MAX_NAME_LENGTH)
  }

  // ---------------------------------------------------------------------
  // Attribute lines

  /**
   * The corrected stream guard: a `v`, `vn` or `vt` value is stored while
   * fewer than `MAX_VERTEX_COUNT` of its kind are stored.
   */
  predicate StreamAccepts(count: int)
  {
    count < MAX_VERTEX_COUNT
  }

  /** Every float an accepted value is written to lies inside its buffer. */
  lemma StreamAcceptsInBounds(count: int, width: int)
    requires 0 <= count && StreamAccepts(count) && 0 < width
    ensures count * width + width <= MAX_VERTEX_COUNT * width
  {
    assert count + 1 <= MAX_VERTEX_COUNT;
    MulMono(count + 1, MAX_VERTEX_COUNT, width);
  }

  lemma MulMono(a: int, b: int, w: int)
    requires a <= b && 0 < w
    ensures a * w <= b * w
  {
  }

  /**
   * The guard as written: a stream is refused only once its count reaches
   * `MAX_VERTEX_COUNT * width` (`width` being 3 for `v` and `vn`, 2 for `vt`).
   */
  predicate StreamAcceptsAsWritten(count: int, width: int)
  {
    !(count >= MAX_VERTEX_COUNT * width)
  }

  /**
   * The guard as written admits a value whenever `count` values are stored,
   * for every `count` from `MAX_VERTEX_COUNT` (the buffer of
   * `MAX_VERTEX_COUNT * width` floats is full) up to the written bound. The
   * value's first float goes to index `count * width`, at or past the end of
   * the buffer; the corrected guard refuses every such value.
   */
  lemma StreamGuardOverrunsAsWritten(count: int, width: int)
    requires width == 2 || width == 3
    requires MAX_VERTEX_COUNT <= count < MAX_VERTEX_COUNT * width
    ensures StreamAcceptsAsWritten(count, width)
    ensures count * width >= MAX_VERTEX_COUNT * width
    ensures count == MAX_VERTEX_COUNT ==> count * width == MAX_VERTEX_COUNT * width
    ensures !StreamAccepts(count)
  {
    MulMono(MAX_VERTEX_COUNT, count, width);
  }

  /** 1 when `sscanf` converted fewer or more values than expected. */
  function ScanError(count: int, expected: int): (e: int)
    ensures e == 0 || e == 1
    ensures e == 0 <==> count == expected
  {
    if count != expected then 1 else 0
  }

  /** An `o ` line: record the object name, unless 1000 objects are named. */
  function ObjectLine(st: Load, t: seq<char>): Load
  {
    if |st.mesh.objNames| >= MAX_OBJ_COUNT then st
    else st.(mesh := st.mesh.(objNames := st.mesh.objNames + [Name(t, |OBJECT_TAG|)]))
  }

  /** A `v ` line: store the scanned position; a short scan counts an error. */
  function PositionLine(st: Load, t: seq<char>, scan: Scanners): Load
  {
    if !StreamAccepts(|st.attrs.positions|) then st
    else
      var sc := scan.position(t);
      st.(attrs := st.attrs.(positions := st.attrs.positions + [sc.value]),
          errors := st.errors + ScanError(sc.count, 3))
  }

  /** A `vn ` line: store the scanned normal. */
  function NormalLine(st: Load, t: seq<char>, scan: Scanners): Load
  {
    if !StreamAccepts(|st.attrs.normals|) then st
    else
      var sc := scan.normal(t);
      st.(attrs := st.attrs.(normals := st.attrs.normals + [sc.value]),
          errors := st.errors + ScanError(sc.count, 3))
  }

  /** A `vt ` line: store the scanned texture coordinate with `v` flipped. */
  function UvLine(st: Load, t: seq<char>, scan: Scanners): Load
  {
    if !StreamAccepts(|st.attrs.uvs|) then st
    else
      var sc := scan.uv(t);
      st.(attrs := st.attrs.(uvs := st.attrs.uvs + [Vec2(sc.value.u, 1.0 - sc.value.v)]),
          errors := st.errors + ScanError(sc.count, 2))
  }

  /** An `mtllib ` line: the library name, replacing any earlier one. */
  function MaterialLibLine(st: Load, t: seq<char>): Load
  {
    st.(mesh := st.mesh.(materialLib := Some(Name(t, |MATERIAL_LIB_TAG|))))
  }

  /**
   * A `usemtl ` line: open a material group at the current vertex count,
   * unless 64 groups are open.
   */
  function UseMaterialLine(st: Load, t: seq<char>): Load
  {
    if |st.mesh.groupMaterials| >= MAX_MATERIAL_GROUP_COUNT then st
    else st.(mesh := st.mesh.(groupMaterials := st.mesh.groupMaterials + [Name(t, |USE_MATERIAL_TAG|)],
                              groupOffsets := st.mesh.groupOffsets + [|st.mesh.positions|]))
  }

  // ---------------------------------------------------------------------
  // Face lines

  /** The line after `parse_face_line` turned every `/` into a space. */
  function Unslash(s: seq<char>): (r: seq<char>)
    ensures |r| == |s|
    ensures forall i :: 0 <= i < |s| ==> r[i] == if s[i] == '/' then ' ' else s[i]
  {
    if |s| == 0 then [] else [if s[0] == '/' then ' ' else s[0]] + Unslash(s[1..])
  }

  /** The number of spaces in `u`. */
  function SpaceCount(u: seq<char>): nat
  {
    if |u| == 0 then 0 else (if u[0] == ' ' then 1 else 0) + SpaceCount(u[1..])
  }

  /**
   * The indices a rewritten face line spells: for each space, what `atoi`
   * reads from that space on, minus 1, in line order.
   */
  function FaceIndices(u: seq<char>): (idx: seq<int>)
    ensures |idx| == SpaceCount(u)
  {
    if |u| == 0 then []
    else (if u[0] == ' ' then [Atoi(u) - 1] else []) + FaceIndices(u[1..])
  }

  /** The outcome of `parse_face_line`: its error flag and, unless the index list overflowed, the indices. */
  datatype Face = Face(err: int, indices: Option<seq<int>>)

  function ParseFace(t: seq<char>): (f: Face)
    ensures f.err == 0 || f.err == 1
    ensures f.indices.None? <==> SpaceCount(Unslash(t)) > MAX_FACE_INDEX_COUNT
    ensures f.indices.Some? ==> f.indices.value == FaceIndices(Unslash(t))
    ensures f.err == 0 <==> f.indices.Some? && |f.indices.value| % 3 == 0
  {
    var idx := FaceIndices(Unslash(t));
    if |idx| > MAX_FACE_INDEX_COUNT then Face(1, None)
    else Face(if |idx| % 3 != 0 then 1 else 0, Some(idx))
  }

  /** The corners of the first `n` triangles of a fan: (0, j+1, j+2) for each j. */
  function Fan(n: nat): (cs: seq<int>)
    ensures |cs| == 3 * n
    ensures forall i :: 0 <= i < |cs| ==> 0 <= cs[i] <= n + 1
  {
    seq(3 * n, i requires 0 <= i < 3 * n => if i % 3 == 0 then 0 else i / 3 + i % 3)
  }

  /** Triangle `j` of a fan is corners 0, `j + 1` and `j + 2`. */
  lemma FanAt(n: nat, j: int)
    requires 0 <= j < n
    ensures Fan(n)[3 * j] == 0 && Fan(n)[3 * j + 1] == j + 1 && Fan(n)[3 * j + 2] == j + 2
  {
    assert (3 * j) % 3 == 0;
    assert (3 * j + 1) / 3 == j && (3 * j + 1) % 3 == 1;
    assert (3 * j + 2) / 3 == j && (3 * j + 2) % 3 == 2;
  }

  lemma FanStep(n: nat)
    ensures Fan(n + 1) == Fan(n) + [0, n + 1, n + 2]
  {
    assert Fan(n + 1)[3 * n] == 0;
    assert Fan(n + 1)[3 * n + 1] == n + 1;
    assert Fan(n + 1)[3 * n + 2] == n + 2;
  }

  /** The fan `append_face` emits for a polygon of `k` corners; none for `k < 3`. */
  function FanCorners(k: int): (cs: seq<int>)
    ensures k < 3 ==> cs == []
    ensures k >= 3 ==> |cs| == 3 * (k - 2)
    ensures forall i :: 0 <= i < |cs| ==> 0 <= cs[i] < k
  {
    if k >= 2 then Fan(k - 2) else []
  }

  /** Every corner `c` names an index triple `idx[3c..3c+3]`. */
  ghost predicate CornersIn(cs: seq<int>, idx: seq<int>)
  {
    forall i :: 0 <= i < |cs| ==> 0 <= cs[i] && 3 * cs[i] + 2 < |idx|
  }

  /** `xs[i]` if it exists, `Undefined` otherwise. */
  function Fetch<T>(xs: seq<T>, i: int): (a: Attr<T>)
    ensures a.Fetched? <==> 0 <= i < |xs|
  {
    if 0 <= i < |xs| then Fetched(xs[i]) else Undefined
  }

  /**
   * `append_vertex`: corner `c` of the face becomes the next vertex, its
   * index triple read as (position, uv, normal); nothing once the mesh holds
   * `MAX_VERTEX_COUNT` vertices.
   */
  function AddVertex(m: MeshData, a: Attributes, idx: seq<int>, c: int): MeshData
    requires 0 <= c && 3 * c + 2 < |idx|
  {
    if |m.positions| >= MAX_VERTEX_COUNT then m
    else m.(positions := m.positions + [Fetch(a.positions, idx[3 * c])],
            uvs := m.uvs + [Fetch(a.uvs, idx[3 * c + 1])],
            normals := m.normals + [Fetch(a.normals, idx[3 * c + 2])])
  }

  /** The vertices of the corners `cs`, appended in order. */
  function AppendCorners(m: MeshData, a: Attributes, idx: seq<int>, cs: seq<int>): MeshData
    requires CornersIn(cs, idx)
  {
    if |cs| == 0 then m
    else AddVertex(AppendCorners(m, a, idx, cs[..|cs| - 1]), a, idx, cs[|cs| - 1])
  }

  /** `append_face`: the fan over the `|idx| / 3` corners of the face. */
  function AppendFace(m: MeshData, a: Attributes, idx: seq<int>): MeshData
  {
    var cs := FanCorners(|idx| / 3);
    assert CornersIn(cs, idx);
    AppendCorners(m, a, idx, cs)
  }

  /**
   * An `f ` line: parse the indices and append the fan; an overflowing index
   * list leaves the count at 0 and appends nothing.
   */
  function FaceLine(st: Load, t: seq<char>): Load
  {
    var f := ParseFace(t);
    var idx := if f.indices.Some? then f.indices.value else [];
    st.(mesh := AppendFace(st.mesh, st.attrs, idx), errors := st.errors + f.err)
  }

  // ---------------------------------------------------------------------
  // The line loop

  /** The kinds of line `load_wavefront` acts on. */
  datatype LineKind = ObjectKind | PositionKind | NormalKind | UvKind | FaceKind | MaterialLibKind | UseMaterialKind | OtherKind

  /**
   * The kind of a line, by the tag it starts with. The source tests the
   * tags one after another, but no two tags can both prefix a line
   * (`TagsExclusive`), so at most one branch applies; a line with none of
   * them is ignored.
   */
  function KindOf(t: seq<char>): LineKind
  {
    if StartsWith(t, OBJECT_TAG) then ObjectKind
    else if StartsWith(t, POSITION_TAG) then PositionKind
    else if StartsWith(t, NORMAL_TAG) then NormalKind
    else if StartsWith(t, UV_TAG) then UvKind
    else if StartsWith(t, FACE_TAG) then FaceKind
    else if StartsWith(t, MATERIAL_LIB_TAG) then MaterialLibKind
    else if StartsWith(t, USE_MATERIAL_TAG) then UseMaterialKind
    else OtherKind
  }

  /** One line of the loop. */
  function Step(st: Load, t: seq<char>, scan: Scanners): Load
  {
    match KindOf(t)
    case ObjectKind => ObjectLine(st, t)
    case PositionKind => PositionLine(st, t, scan)
    case NormalKind => NormalLine(st, t, scan)
    case UvKind => UvLine(st, t, scan)
    case FaceKind => FaceLine(st, t)
    case MaterialLibKind => MaterialLibLine(st, t)
    case UseMaterialKind => UseMaterialLine(st, t)
    case OtherKind => st
  }

  /** The state after the lines `ls`, in order. */
  function Run(st: Load, ls: seq<seq<char>>, scan: Scanners): Load
    decreases |ls|
  {
    if |ls| == 0 then st else Run(Step(st, ls[0], scan), ls[1..], scan)
  }

  /** `load_wavefront`: the mesh and the error count of a whole resource. */
  function LoadObj(data: seq<char>, scan: Scanners): Load
  {
    Run(Start, Lines(data, 0), scan)
  }

  // ---------------------------------------------------------------------
  // Properties

  /** Two prefixes of one string are prefixes of each other. */
  lemma PrefixesComparable(s: seq<char>, a: seq<char>, b: seq<char>)
    requires a <= s && b <= s
    ensures a <= b || b <= a
  {
    if |a| <= |b| {
      assert a == s[..|a|] == b[..|a|];
    } else {
      assert b == s[..|b|] == a[..|b|];
    }
  }

  /** Tags that differ at some position `k` never both start a line. */
  lemma ApartExclusive(t: seq<char>, a: seq<char>, b: seq<char>, k: int)
    requires NUL !in a && NUL !in b && 0 <= k < |a| && k < |b| && a[k] != b[k]
    ensures !(StartsWith(t, a) && StartsWith(t, b))
  {
    StartsWithIsPrefix(t, a);
    StartsWithIsPrefix(t, b);
    if StartsWith(t, a) && StartsWith(t, b) {
      PrefixesComparable(CStr(t), a, b);
    }
  }

  /** At most one of the line tags matches any line. */
  lemma TagsExclusive(t: seq<char>)
    ensures StartsWith(t, OBJECT_TAG) ==> (!StartsWith(t, POSITION_TAG) && !StartsWith(t, NORMAL_TAG)
      && !StartsWith(t, UV_TAG) && !StartsWith(t, FACE_TAG) && !StartsWith(t, MATERIAL_LIB_TAG)
      && !StartsWith(t, USE_MATERIAL_TAG))
    ensures StartsWith(t, POSITION_TAG) ==> (!StartsWith(t, NORMAL_TAG) && !StartsWith(t, UV_TAG)
      && !StartsWith(t, FACE_TAG) && !StartsWith(t, MATERIAL_LIB_TAG) && !StartsWith(t, USE_MATERIAL_TAG))
    ensures StartsWith(t, NORMAL_TAG) ==> (!StartsWith(t, UV_TAG) && !StartsWith(t, FACE_TAG)
      && !StartsWith(t, MATERIAL_LIB_TAG) && !StartsWith(t, USE_MATERIAL_TAG))
    ensures StartsWith(t, UV_TAG) ==> (!StartsWith(t, FACE_TAG) && !StartsWith(t, MATERIAL_LIB_TAG)
      && !StartsWith(t, USE_MATERIAL_TAG))
    ensures StartsWith(t, FACE_TAG) ==> !StartsWith(t, MATERIAL_LIB_TAG) && !StartsWith(t, USE_MATERIAL_TAG)
    ensures StartsWith(t, MATERIAL_LIB_TAG) ==> !StartsWith(t, USE_MATERIAL_TAG)
  {
    ApartExclusive(t, OBJECT_TAG, POSITION_TAG, 0);
    ApartExclusive(t, OBJECT_TAG, NORMAL_TAG, 0);
    ApartExclusive(t, OBJECT_TAG, UV_TAG, 0);
    ApartExclusive(t, OBJECT_TAG, FACE_TAG, 0);
    ApartExclusive(t, OBJECT_TAG, MATERIAL_LIB_TAG, 0);
    ApartExclusive(t, OBJECT_TAG, USE_MATERIAL_TAG, 0);
    ApartExclusive(t, POSITION_TAG, NORMAL_TAG, 1);
    ApartExclusive(t, POSITION_TAG, UV_TAG, 1);
    ApartExclusive(t, POSITION_TAG, FACE_TAG, 0);
    ApartExclusive(t, POSITION_TAG, MATERIAL_LIB_TAG, 0);
    ApartExclusive(t, POSITION_TAG, USE_MATERIAL_TAG, 0);
    ApartExclusive(t, NORMAL_TAG, UV_TAG, 1);
    ApartExclusive(t, NORMAL_TAG, FACE_TAG, 0);
    ApartExclusive(t, NORMAL_TAG, MATERIAL_LIB_TAG, 0);
    ApartExclusive(t, NORMAL_TAG, USE_MATERIAL_TAG, 0);
    ApartExclusive(t, UV_TAG, FACE_TAG, 0);
    ApartExclusive(t, UV_TAG, MATERIAL_LIB_TAG, 0);
    ApartExclusive(t, UV_TAG, USE_MATERIAL_TAG, 0);
    ApartExclusive(t, FACE_TAG, MATERIAL_LIB_TAG, 0);
    ApartExclusive(t, FACE_TAG, USE_MATERIAL_TAG, 0);
    ApartExclusive(t, MATERIAL_LIB_TAG, USE_MATERIAL_TAG, 0);
  }

  /**
   * What stays true of the loader's state from line to line: one entry per
   * vertex in each output stream, every count within its capacity, and the
   * material groups opened in order at vertex counts already reached.
   */
  ghost predicate Inv(st: Load)
  {
    var m := st.mesh;
    |m.positions| == |m.normals| == |m.uvs| <= MAX_VERTEX_COUNT
    && |m.objNames| <= MAX_OBJ_COUNT
    && |m.groupMaterials| == |m.groupOffsets| <= MAX_MATERIAL_GROUP_COUNT
    && (forall g :: 0 <= g < |m.groupOffsets| ==> 0 <= m.groupOffsets[g] <= |m.positions|)
    && (forall g, h :: 0 <= g < h < |m.groupOffsets| ==> m.groupOffsets[g] <= m.groupOffsets[h])
    && |st.attrs.positions| <= MAX_VERTEX_COUNT
    && |st.attrs.normals| <= MAX_VERTEX_COUNT
    && |st.attrs.uvs| <= MAX_VERTEX_COUNT
    && st.errors >= 0
  }

  /** The mesh only grows: earlier vertices and names are never rewritten. */
  ghost predicate Extends(m: MeshData, m': MeshData)
  {
    m.positions <= m'.positions && m.normals <= m'.normals && m.uvs <= m'.uvs
    && m.objNames <= m'.objNames
    && m.groupMaterials <= m'.groupMaterials && m.groupOffsets <= m'.groupOffsets
  }

  lemma ExtendsTransitive(m0: MeshData, m1: MeshData, m2: MeshData)
    requires Extends(m0, m1) && Extends(m1, m2)
    ensures Extends(m0, m2)
  {
    PrefixTransitive(m0.positions, m1.positions, m2.positions);
    PrefixTransitive(m0.normals, m1.normals, m2.normals);
    PrefixTransitive(m0.uvs, m1.uvs, m2.uvs);
    PrefixTransitive(m0.objNames, m1.objNames, m2.objNames);
    PrefixTransitive(m0.groupMaterials, m1.groupMaterials, m2.groupMaterials);
    PrefixTransitive(m0.groupOffsets, m1.groupOffsets, m2.groupOffsets);
  }

  lemma PrefixTransitive<T>(a: seq<T>, b: seq<T>, c: seq<T>)
    requires a <= b && b <= c
    ensures a <= c
  {
    assert a == b[..|a|] == c[..|b|][..|a|] == c[..|a|];
  }

  /** Appending corners adds one vertex per corner until the mesh is full. */
  lemma {:induction false} AppendCornersCount(m: MeshData, a: Attributes, idx: seq<int>, cs: seq<int>)
    requires CornersIn(cs, idx)
    requires |m.positions| == |m.normals| == |m.uvs| <= MAX_VERTEX_COUNT
    ensures var m' := AppendCorners(m, a, idx, cs);
      |m'.positions| == |m'.normals| == |m'.uvs|
      && |m'.positions| == (if |m.positions| + |cs| <= MAX_VERTEX_COUNT then |m.positions| + |cs| else MAX_VERTEX_COUNT)
      && Extends(m, m')
      && m'.objNames == m.objNames && m'.materialLib == m.materialLib
      && m'.groupMaterials == m.groupMaterials && m'.groupOffsets == m.groupOffsets
  {
    if |cs| > 0 {
      AppendCornersCount(m, a, idx, cs[..|cs| - 1]);
    }
  }

  /**
   * Slot `k` of the index triple of each corner in `cs`, fetched from `xs`:
   * the positions (`k == 0`), uvs (1) or normals (2) the corners name.
   */
  function Picked<T>(xs: seq<T>, idx: seq<int>, cs: seq<int>, k: int): (r: seq<Attr<T>>)
    requires CornersIn(cs, idx) && 0 <= k <= 2
    ensures |r| == |cs|
    ensures forall j :: 0 <= j < |cs| ==> r[j] == Fetch(xs, idx[3 * cs[j] + k])
  {
    if |cs| == 0 then []
    else Picked(xs, idx, cs[..|cs| - 1], k) + [Fetch(xs, idx[3 * cs[|cs| - 1] + k])]
  }

  /** Below the cap, the corners' attributes are appended to the three streams. */
  lemma {:induction false} AppendCornersContents(m: MeshData, a: Attributes, idx: seq<int>, cs: seq<int>)
    requires CornersIn(cs, idx)
    requires |m.positions| + |cs| <= MAX_VERTEX_COUNT
    ensures var m' := AppendCorners(m, a, idx, cs);
      m'.positions == m.positions + Picked(a.positions, idx, cs, 0)
      && m'.uvs == m.uvs + Picked(a.uvs, idx, cs, 1)
      && m'.normals == m.normals + Picked(a.normals, idx, cs, 2)
  {
    if |cs| > 0 {
      var init := cs[..|cs| - 1];
      var c := cs[|cs| - 1];
      assert CornersIn(init, idx);
      AppendCornersContents(m, a, idx, init);
      assert m.positions + Picked(a.positions, idx, cs, 0)
        == m.positions + Picked(a.positions, idx, init, 0) + [Fetch(a.positions, idx[3 * c])];
      assert m.uvs + Picked(a.uvs, idx, cs, 1)
        == m.uvs + Picked(a.uvs, idx, init, 1) + [Fetch(a.uvs, idx[3 * c + 1])];
      assert m.normals + Picked(a.normals, idx, cs, 2)
        == m.normals + Picked(a.normals, idx, init, 2) + [Fetch(a.normals, idx[3 * c + 2])];
    }
  }

  /**
   * A face with `k` corners (`3k` to `3k + 2` indices) that fits below the cap
   * appends its fan's attributes to the three streams.
   */
  lemma FaceIsFan(m: MeshData, a: Attributes, idx: seq<int>, k: nat)
    requires 3 * k <= |idx| < 3 * k + 3 && k >= 2
    requires |m.positions| + 3 * (k - 2) <= MAX_VERTEX_COUNT
    ensures CornersIn(Fan(k - 2), idx)
    ensures var m' := AppendFace(m, a, idx);
      m'.positions == m.positions + Picked(a.positions, idx, Fan(k - 2), 0)
      && m'.uvs == m.uvs + Picked(a.uvs, idx, Fan(k - 2), 1)
      && m'.normals == m.normals + Picked(a.normals, idx, Fan(k - 2), 2)
  {
    AppendFaceCorners(m, a, idx, k);
    AppendCornersContents(m, a, idx, Fan(k - 2));
  }

  lemma AppendFaceCorners(m: MeshData, a: Attributes, idx: seq<int>, k: nat)
    requires 3 * k <= |idx| < 3 * k + 3 && k >= 2
    ensures CornersIn(Fan(k - 2), idx)
    ensures AppendFace(m, a, idx) == AppendCorners(m, a, idx, Fan(k - 2))
  {
    assert |idx| / 3 == k;
  }

  /**
   * Triangle `j` of the fan over a face of `n + 2` corners is corners 0,
   * `j + 1` and `j + 2`, whichever attribute slot is fetched.
   */
  lemma FanTriangles<T>(xs: seq<T>, idx: seq<int>, n: nat, slot: int)
    requires 3 * (n + 2) <= |idx| && 0 <= slot <= 2
    ensures var ps := Picked(xs, idx, Fan(n), slot);
      forall j :: 0 <= j < n ==>
        ps[3 * j] == Fetch(xs, idx[slot]) && ps[3 * j + 1] == Fetch(xs, idx[3 * (j + 1) + slot])
        && ps[3 * j + 2] == Fetch(xs, idx[3 * (j + 2) + slot])
  {
    var ps := Picked(xs, idx, Fan(n), slot);
    forall j | 0 <= j < n
      ensures ps[3 * j] == Fetch(xs, idx[slot]) && ps[3 * j + 1] == Fetch(xs, idx[3 * (j + 1) + slot])
      ensures ps[3 * j + 2] == Fetch(xs, idx[3 * (j + 2) + slot])
    {
      FanTriangle(xs, idx, n, slot, j);
    }
  }

  /** Triangle `j` of the fan, one at a time. */
  lemma FanTriangle<T>(xs: seq<T>, idx: seq<int>, n: nat, slot: int, j: int)
    requires 3 * (n + 2) <= |idx| && 0 <= slot <= 2 && 0 <= j < n
    ensures Picked(xs, idx, Fan(n), slot)[3 * j] == Fetch(xs, idx[slot])
    ensures Picked(xs, idx, Fan(n), slot)[3 * j + 1] == Fetch(xs, idx[3 * (j + 1) + slot])
    ensures Picked(xs, idx, Fan(n), slot)[3 * j + 2] == Fetch(xs, idx[3 * (j + 2) + slot])
  {
    var cs := Fan(n);
    FanAt(n, j);
    var ps := Picked(xs, idx, cs, slot);
    assert ps[3 * j] == Fetch(xs, idx[3 * cs[3 * j] + slot]);
    assert ps[3 * j + 1] == Fetch(xs, idx[3 * cs[3 * j + 1] + slot]);
    assert ps[3 * j + 2] == Fetch(xs, idx[3 * cs[3 * j + 2] + slot]);
  }

  lemma AppendFaceKeepsInv(st: Load, idx: seq<int>)
    requires Inv(st)
    ensures var m' := AppendFace(st.mesh, st.attrs, idx);
      Inv(st.(mesh := m')) && Extends(st.mesh, m')
  {
    var cs := FanCorners(|idx| / 3);
    assert CornersIn(cs, idx);
    AppendCornersCount(st.mesh, st.attrs, idx, cs);
  }

  /** Every line keeps the invariant, grows the mesh and never lowers the error count. */
  lemma StepKeepsInv(st: Load, t: seq<char>, scan: Scanners)
    requires Inv(st)
    ensures var st' := Step(st, t, scan);
      Inv(st') && Extends(st.mesh, st'.mesh) && st'.errors >= st.errors
  {
    match KindOf(t)
    case ObjectKind => NameLinesKeepInv(st, t);
    case PositionKind => AttributeLinesKeepInv(st, t, scan);
    case NormalKind => AttributeLinesKeepInv(st, t, scan);
    case UvKind => AttributeLinesKeepInv(st, t, scan);
    case FaceKind => FaceLineKeepsInv(st, t);
    case MaterialLibKind => NameLinesKeepInv(st, t);
    case UseMaterialKind => NameLinesKeepInv(st, t);
    case OtherKind =>
  }

  lemma NameLinesKeepInv(st: Load, t: seq<char>)
    requires Inv(st)
    ensures Inv(ObjectLine(st, t)) && Extends(st.mesh, ObjectLine(st, t).mesh)
    ensures ObjectLine(st, t).errors == st.errors
    ensures Inv(MaterialLibLine(st, t)) && Extends(st.mesh, MaterialLibLine(st, t).mesh)
    ensures MaterialLibLine(st, t).errors == st.errors
    ensures Inv(UseMaterialLine(st, t)) && Extends(st.mesh, UseMaterialLine(st, t).mesh)
    ensures UseMaterialLine(st, t).errors == st.errors
  {
    UseMaterialKeepsInv(st, t);
  }

  lemma UseMaterialKeepsInv(st: Load, t: seq<char>)
    requires Inv(st)
    ensures Inv(UseMaterialLine(st, t)) && Extends(st.mesh, UseMaterialLine(st, t).mesh)
  {
    var m := st.mesh;
    if |m.groupMaterials| < MAX_MATERIAL_GROUP_COUNT {
      var m' := UseMaterialLine(st, t).mesh;
      assert m'.groupOffsets == m.groupOffsets + [|m.positions|];
      assert m'.positions == m.positions;
    }
  }

  lemma AttributeLinesKeepInv(st: Load, t: seq<char>, scan: Scanners)
    requires Inv(st)
    ensures Inv(PositionLine(st, t, scan)) && PositionLine(st, t, scan).mesh == st.mesh
    ensures PositionLine(st, t, scan).errors >= st.errors
    ensures Inv(NormalLine(st, t, scan)) && NormalLine(st, t, scan).mesh == st.mesh
    ensures NormalLine(st, t, scan).errors >= st.errors
    ensures Inv(UvLine(st, t, scan)) && UvLine(st, t, scan).mesh == st.mesh
    ensures UvLine(st, t, scan).errors >= st.errors
  {
  }

  lemma FaceLineKeepsInv(st: Load, t: seq<char>)
    requires Inv(st)
    ensures Inv(FaceLine(st, t)) && Extends(st.mesh, FaceLine(st, t).mesh)
    ensures FaceLine(st, t).errors >= st.errors
  {
    var f := ParseFace(t);
    AppendFaceKeepsInv(st, if f.indices.Some? then f.indices.value else []);
  }

  /** The invariant holds after every line of a resource. */
  lemma {:induction false} RunKeepsInv(st: Load, ls: seq<seq<char>>, scan: Scanners)
    requires Inv(st)
    ensures Inv(Run(st, ls, scan))
    ensures Extends(st.mesh, Run(st, ls, scan).mesh) && Run(st, ls, scan).errors >= st.errors
    decreases |ls|
  {
    if |ls| > 0 {
      var st' := Step(st, ls[0], scan);
      StepKeepsInv(st, ls[0], scan);
      RunKeepsInv(st', ls[1..], scan);
      ExtendsTransitive(st.mesh, st'.mesh, Run(st', ls[1..], scan).mesh);
    }
  }

  /**
   * Whatever the resource: at most `MAX_VERTEX_COUNT` vertices, 1000 object
   * names and 64 material groups, whose offsets never decrease and never
   * exceed the vertex count.
   */
  lemma LoadObjBounded(data: seq<char>, scan: Scanners)
    ensures Inv(LoadObj(data, scan))
  {
    RunKeepsInv(Start, Lines(data, 0), scan);
  }

  /** The decimal spellings of `ns`, each after a space. */
  function Spaced(ns: seq<nat>): seq<char>
  {
    if |ns| == 0 then [] else [' '] + Decimal(ns[0]) + Spaced(ns[1..])
  }

  lemma {:induction false} FaceIndicesSkip(ds: seq<char>, rest: seq<char>)
    requires forall i :: 0 <= i < |ds| ==> ds[i] != ' '
    ensures FaceIndices(ds + rest) == FaceIndices(rest)
  {
    if |ds| > 0 {
      assert (ds + rest)[1..] == ds[1..] + rest;
      FaceIndicesSkip(ds[1..], rest);
    } else {
      assert ds + rest == rest;
    }
  }

  /** Each of `ns` lowered by one. */
  function Lowered(ns: seq<nat>): (r: seq<int>)
    ensures |r| == |ns| && forall i :: 0 <= i < |ns| ==> r[i] == ns[i] as int - 1
  {
    if |ns| == 0 then [] else [ns[0] as int - 1] + Lowered(ns[1..])
  }

  /**
   * Indices written in decimal after spaces read back one lower: the
   * 1-based indices of the file become 0-based slots.
   */
  lemma {:induction false} FaceIndicesRoundTrip(ns: seq<nat>)
    ensures FaceIndices(Spaced(ns)) == Lowered(ns)
  {
    if |ns| > 0 {
      SpacedCons(ns);
      FaceIndicesCons(ns[0], Spaced(ns[1..]));
      FaceIndicesRoundTrip(ns[1..]);
      assert Lowered(ns) == [ns[0] as int - 1] + Lowered(ns[1..]);
    }
  }

  /** The first index after a space, then the others, which start with a space if any. */
  lemma SpacedCons(ns: seq<nat>)
    requires |ns| > 0
    ensures Spaced(ns) == [' '] + Decimal(ns[0]) + Spaced(ns[1..])
    ensures Spaced(ns[1..]) == [] || Spaced(ns[1..])[0] == ' '
  {
    var tail := ns[1..];
    if |tail| > 0 {
      assert Spaced(tail) == [' '] + (Decimal(tail[0]) + Spaced(tail[1..]));
    }
  }

  /** One index in decimal after a space, then further indices. */
  lemma FaceIndicesCons(n: nat, rest: seq<char>)
    requires rest == [] || rest[0] == ' '
    ensures FaceIndices([' '] + Decimal(n) + rest) == [n - 1] + FaceIndices(rest)
  {
    var ds := Decimal(n);
    var u := [' '] + ds + rest;
    assert u[1..] == ds + rest;
    FaceIndicesSkip(ds, rest);
    AtoiDecimal([' '], n, rest);
    FaceIndicesSpace(u);
    var i := Atoi(u) - 1;
    assert i == n - 1;
    assert FaceIndices(u) == [i] + FaceIndices(rest);
  }

  lemma FaceIndicesSpace(u: seq<char>)
    requires |u| > 0 && u[0] == ' '
    ensures FaceIndices(u) == [Atoi(u) - 1] + FaceIndices(u[1..])
  {
  }
}
