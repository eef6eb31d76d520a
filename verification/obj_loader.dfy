/**
 * `load_wavefront` as the source runs it: the output `wavefront_t` and the
 * loader's local storage are arrays filled in place, the line buffer is a
 * 256-character array rewritten line by line, and a face's indices go to a
 * 96-entry index list. Each method is proved against `ObjFormat`.
 */
module ObjLoader {
  import opened Geometry
  import opened CStrings
  import opened ObjFormat

  /** The output `wavefront_t`: the vertex streams, object names and material groups. */
  class Mesh {
    const positions: array<Attr<Vec3>>
    const normals: array<Attr<Vec3>>
    const uvs: array<Attr<Vec2>>
    var vertexCount: int
    const objNames: array<seq<char>>
    var objCount: int
    var materialLib: Option<seq<char>>
    const groupMaterials: array<seq<char>>
    const groupOffsets: array<int>
    var groupCount: int

    ghost predicate Valid()
      reads this
    {
      positions.Length == MAX_VERTEX_COUNT && normals.Length == MAX_VERTEX_COUNT
      && uvs.Length == MAX_VERTEX_COUNT && positions != normals
      && objNames.Length == MAX_OBJ_COUNT && groupMaterials.Length == MAX_MATERIAL_GROUP_COUNT
      && groupOffsets.Length == MAX_MATERIAL_GROUP_COUNT && objNames != groupMaterials
      && 0 <= vertexCount <= MAX_VERTEX_COUNT && 0 <= objCount <= MAX_OBJ_COUNT
      && 0 <= groupCount <= MAX_MATERIAL_GROUP_COUNT
    }

    /** What the mesh holds: the filled prefix of each array. */
    ghost function Data(): MeshData
      requires Valid()
      reads this, positions, normals, uvs, objNames, groupMaterials, groupOffsets
    {
      MeshData(positions[..vertexCount], normals[..vertexCount], uvs[..vertexCount],
               objNames[..objCount], materialLib, groupMaterials[..groupCount], groupOffsets[..groupCount])
    }

    /** The "initialize output" block of `load_wavefront`: empty lists at full capacity. */
    constructor ()
      ensures Valid() && Data() == EmptyMesh
      ensures fresh(positions) && fresh(normals) && fresh(uvs)
      ensures fresh(objNames) && fresh(groupMaterials) && fresh(groupOffsets)
    {
      positions := new Attr<Vec3>[MAX_VERTEX_COUNT](_ => Undefined);
      normals := new Attr<Vec3>[MAX_VERTEX_COUNT](_ => Undefined);
      uvs := new Attr<Vec2>[MAX_VERTEX_COUNT](_ => Undefined);
      vertexCount := 0;
      objNames := new seq<char>[MAX_OBJ_COUNT](_ => []);
      objCount := 0;
      materialLib := None;
      groupMaterials := new seq<char>[MAX_MATERIAL_GROUP_COUNT](_ => []);
      groupOffsets := new int[MAX_MATERIAL_GROUP_COUNT](_ => 0);
      groupCount := 0;
    }

    /** Record an object name in the next slot. */
    method AddObject(name: seq<char>)
      requires Valid() && objCount < MAX_OBJ_COUNT
      modifies this, objNames
      ensures Valid() && Data() == old(Data()).(objNames := old(Data()).objNames + [name])
    {
      objNames[objCount] := name;
      objCount := objCount + 1;
    }

    /** Open a material group at the current vertex count. */
    method AddGroup(name: seq<char>)
      requires Valid() && groupCount < MAX_MATERIAL_GROUP_COUNT
      modifies this, groupMaterials, groupOffsets
      ensures Valid()
      ensures Data() == old(Data()).(groupMaterials := old(Data()).groupMaterials + [name],
                                     groupOffsets := old(Data()).groupOffsets + [vertexCount])
    {
      groupMaterials[groupCount] := name;
      groupOffsets[groupCount] := vertexCount;
      groupCount := groupCount + 1;
    }

    /** Set the material library name. */
    method SetMaterialLib(name: seq<char>)
      requires Valid()
      modifies this
      ensures Valid() && Data() == old(Data()).(materialLib := Some(name))
    {
      materialLib := Some(name);
    }

    /** Store one vertex's attributes in the next slot of each stream. */
    method PushVertex(p: Attr<Vec3>, n: Attr<Vec3>, t: Attr<Vec2>)
      requires Valid() && vertexCount < MAX_VERTEX_COUNT
      modifies this, positions, normals, uvs
      ensures Valid()
      ensures Data() == old(Data()).(positions := old(Data()).positions + [p],
                                     normals := old(Data()).normals + [n],
                                     uvs := old(Data()).uvs + [t])
    {
      var i := vertexCount;
      positions[i] := p;
      normals[i] := n;
      uvs[i] := t;
      vertexCount := vertexCount + 1;
      assert positions[..vertexCount] == old(positions[..i]) + [p];
      assert normals[..vertexCount] == old(normals[..i]) + [n];
      assert uvs[..vertexCount] == old(uvs[..i]) + [t];
    }

    /**
     * `append_vertex(out, ..., index_list, index)`: corner `index` of the
     * face whose indices are `idx`. The attribute lists and the index list
     * are only read here, so they are passed as their contents.
     */
    method AppendVertex(attrs: Attributes, idx: seq<int>, index: int)
      requires Valid() && 0 <= index && 3 * index + 2 < |idx|
      modifies this, positions, normals, uvs
      ensures Valid() && Data() == AddVertex(old(Data()), attrs, idx, index)
    {
      if vertexCount >= MAX_VERTEX_COUNT {
        return;
      }
      var posIndex := idx[index * 3 + 0];
      var uvIndex := idx[index * 3 + 1];
      var normalIndex := idx[index * 3 + 2];
      PushVertex(Fetch(attrs.positions, posIndex), Fetch(attrs.normals, normalIndex), Fetch(attrs.uvs, uvIndex));
    }

    /** The three `append_vertex` calls of one turn of the fan loop. */
    method AppendTriangle(attrs: Attributes, idx: seq<int>, i: int)
      requires Valid() && 0 <= i && 3 * (i + 2) + 2 < |idx|
      modifies this, positions, normals, uvs
      ensures Valid()
      ensures Data() == AddVertex(AddVertex(AddVertex(old(Data()), attrs, idx, 0), attrs, idx, i + 1), attrs, idx, i + 2)
    {
      AppendVertex(attrs, idx, 0);
      AppendPair(attrs, idx, i);
    }

    /** The second and third `append_vertex` calls of one turn of the fan loop. */
    method AppendPair(attrs: Attributes, idx: seq<int>, i: int)
      requires Valid() && 0 <= i && 3 * (i + 2) + 2 < |idx|
      modifies this, positions, normals, uvs
      ensures Valid()
      ensures Data() == AddVertex(AddVertex(old(Data()), attrs, idx, i + 1), attrs, idx, i + 2)
    {
      AppendVertex(attrs, idx, i + 1);
      AppendVertex(attrs, idx, i + 2);
    }

    /**
     * `append_face`: the fan (0, i+1, i+2) for each i below
     * `index_count / 3 - 2`, where `idx` holds the `index_count` indices.
     */
    method AppendFace(attrs: Attributes, idx: seq<int>)
      requires Valid()
      modifies this, positions, normals, uvs
      ensures Valid()
      ensures Data() == ObjFormat.AppendFace(old(Data()), attrs, idx)
    {
      var polySize := |idx| / 3;
      assert 3 * polySize <= |idx|;
      ghost var m0 := Data();
      var i := 0;
      while i < polySize - 2
        invariant 0 <= i && (polySize >= 2 ==> i <= polySize - 2)
        invariant Valid()
        invariant CornersIn(Fan(i), idx)
        invariant Data() == AppendCorners(m0, attrs, idx, Fan(i))
      {
        assert CornersIn(Fan(i + 1), idx);
        AppendTriangle(attrs, idx, i);
        FanAppend(m0, attrs, idx, i);
        i := i + 1;
      }
      if polySize < 2 {
        assert Fan(i) == [];
      }
    }
  }

  /** One more corner adds one vertex after the others. */
  lemma AppendCornersSnoc(m: MeshData, a: Attributes, idx: seq<int>, cs: seq<int>, c: int)
    requires CornersIn(cs + [c], idx)
    ensures CornersIn(cs, idx) && 0 <= c && 3 * c + 2 < |idx|
    ensures AppendCorners(m, a, idx, cs + [c]) == AddVertex(AppendCorners(m, a, idx, cs), a, idx, c)
  {
    assert (cs + [c])[..|cs|] == cs;
    assert (cs + [c])[|cs|] == c;
  }

  /** Three more corners extend the fan's vertices by one triangle. */
  lemma FanAppend(m: MeshData, a: Attributes, idx: seq<int>, i: nat)
    requires CornersIn(Fan(i + 1), idx)
    ensures CornersIn(Fan(i), idx)
    ensures AppendCorners(m, a, idx, Fan(i + 1))
      == AddVertex(AddVertex(AddVertex(AppendCorners(m, a, idx, Fan(i)), a, idx, 0), a, idx, i + 1), a, idx, i + 2)
  {
    FanStep(i);
    assert Fan(i + 1) == ((Fan(i) + [0]) + [i + 1]) + [i + 2];
    AppendCornersSnoc(m, a, idx, (Fan(i) + [0]) + [i + 1], i + 2);
    AppendCornersSnoc(m, a, idx, Fan(i) + [0], i + 1);
    AppendCornersSnoc(m, a, idx, Fan(i), 0);
  }

  /** The loader's local storage: the `v`, `vn` and `vt` values read so far. */
  class AttributeStore {
    const positions: array<Vec3>
    const normals: array<Vec3>
    const uvs: array<Vec2>
    var positionCount: int
    var normalCount: int
    var uvCount: int

    ghost predicate Valid()
      reads this
    {
      positions.Length == MAX_VERTEX_COUNT && normals.Length == MAX_VERTEX_COUNT
      && uvs.Length == MAX_VERTEX_COUNT && positions != normals
      && 0 <= positionCount <= MAX_VERTEX_COUNT && 0 <= normalCount <= MAX_VERTEX_COUNT
      && 0 <= uvCount <= MAX_VERTEX_COUNT
    }

    /** The values read so far, in order. */
    function Data(): Attributes
      requires Valid()
      reads this, positions, normals, uvs
    {
      Attributes(positions[..positionCount], normals[..normalCount], uvs[..uvCount])
    }

    /** The "local storage" block of `load_wavefront`. */
    constructor ()
      ensures Valid() && Data() == Attributes([], [], [])
      ensures fresh(positions) && fresh(normals) && fresh(uvs)
    {
      positions := new Vec3[MAX_VERTEX_COUNT](_ => Zero3);
      normals := new Vec3[MAX_VERTEX_COUNT](_ => Zero3);
      uvs := new Vec2[MAX_VERTEX_COUNT](_ => Vec2(0.0, 0.0));
      positionCount, normalCount, uvCount := 0, 0, 0;
    }

    method AddPosition(v: Vec3)
      requires Valid() && positionCount < MAX_VERTEX_COUNT
      modifies this, positions
      ensures Valid() && Data() == old(Data()).(positions := old(Data()).positions + [v])
    {
      positions[positionCount] := v;
      positionCount := positionCount + 1;
    }

    method AddNormal(v: Vec3)
      requires Valid() && normalCount < MAX_VERTEX_COUNT
      modifies this, normals
      ensures Valid() && Data() == old(Data()).(normals := old(Data()).normals + [v])
    {
      normals[normalCount] := v;
      normalCount := normalCount + 1;
    }

    method AddUv(v: Vec2)
      requires Valid() && uvCount < MAX_VERTEX_COUNT
      modifies this, uvs
      ensures Valid() && Data() == old(Data()).(uvs := old(Data()).uvs + [v])
    {
      uvs[uvCount] := v;
      uvCount := uvCount + 1;
    }
  }

  /**
   * The "load next line" loop, with the terminator kept inside the buffer:
   * copy characters up to a newline, the end of the data or the last slot
   * but one, then terminate the string.
   */
  method ReadLine(data: seq<char>, cursor: int, line: array<char>) returns (i: int)
    requires 0 <= cursor < |data| && line.Length == MAX_LINE_LENGTH
    modifies line
    ensures i == LineLength(data, cursor)
    ensures line[..i] == data[cursor..cursor + i] && line[i] == NUL
    ensures CStr(line[..]) == LineAt(data, cursor)
  {
    i := 0;
    while i + cursor < |data|
      invariant 0 <= i <= MAX_LINE_LENGTH - 1 && cursor + i <= |data|
      invariant forall k :: cursor <= k < cursor + i ==> data[k] != '\n'
      invariant forall k :: 0 <= k < i ==> line[k] == data[cursor + k]
    {
      var c := data[i + cursor];
      if c == '\n' {
        break;
      }
      if i >= MAX_LINE_LENGTH - 1 {
        break;
      }
      line[i] := c;
      i := i + 1;
    }
    LineEndUnique(data, cursor, MAX_LINE_LENGTH - 1, i);
    line[i] := NUL;
    assert line[..i] == data[cursor..cursor + i];
    BufferHoldsLine(line[..], data, cursor, i);
  }

  /** A buffer holding the copied characters, then a terminator, holds the line's string. */
  lemma BufferHoldsLine(buf: seq<char>, data: seq<char>, cursor: int, i: int)
    requires 0 <= cursor < |data| && i == LineLength(data, cursor) && i < |buf|
    requires buf[..i] == data[cursor..cursor + i] && buf[i] == NUL
    ensures CStr(buf) == LineAt(data, cursor)
  {
    var s := data[cursor..cursor + i];
    assert LineAt(data, cursor) == CStr(s) by {
      LineAtIs(data, cursor, i);
    }
    assert CStr(buf) == CStr(s) by {
      CStrTerminated(buf, i);
    }
  }

  lemma LineAtIs(data: seq<char>, cursor: int, i: int)
    requires 0 <= cursor < |data| && i == LineLength(data, cursor)
    ensures LineAt(data, cursor) == CStr(data[cursor..cursor + i])
  {
  }

  /**
   * `parse_face_line`: turn every `/` of the line's string into a space in
   * place, then read an index after each space. Past 96 indices it fails
   * without reporting a count.
   */
  method ParseFaceLine(indexList: array<int>, line: array<char>) returns (err: int, indexCount: Option<int>)
    requires indexList.Length == MAX_FACE_INDEX_COUNT
    modifies indexList, line
    ensures var t := CStr(old(line[..]));
      line[..] == Unslash(t) + old(line[..])[|t|..]
    ensures var f := ParseFace(CStr(old(line[..])));
      err == f.err
      && indexCount == (if f.indices.Some? then Some(|f.indices.value|) else None)
      && (f.indices.Some? ==> indexList[..|f.indices.value|] == f.indices.value)
  {
    ghost var t := CStr(line[..]);
    var len := |CStr(line[..])|;
    SlashesToSpaces(line, len);
    assert line[..len] == Unslash(t);
    var count := ReadIndices(indexList, line, len);
    if count.None? {
      return 1, None;
    }
    indexCount := count;
    err := if count.value % 3 != 0 then 1 else 0;
  }

  /** The rewriting loop of `parse_face_line`: `/` becomes a space in the first `len` slots. */
  method SlashesToSpaces(line: array<char>, len: int)
    requires 0 <= len <= line.Length
    modifies line
    ensures line[..len] == Unslash(old(line[..len]))
    ensures line[len..] == old(line[len..])
  {
    var i := 0;
    while i < len
      invariant 0 <= i <= len
      invariant forall k :: 0 <= k < i ==> line[k] == if old(line[k]) == '/' then ' ' else old(line[k])
      invariant forall k :: i <= k < line.Length ==> line[k] == old(line[k])
    {
      if line[i] == '/' {
        line[i] := ' ';
      }
      i := i + 1;
    }
  }

  /**
   * The reading loop of `parse_face_line` over the rewritten string
   * `line[..len]`: for each space, `atoi` from there on, minus 1. More than
   * 96 indices give `None`.
   */
  method ReadIndices(indexList: array<int>, line: array<char>, len: int) returns (count: Option<int>)
    requires indexList.Length == MAX_FACE_INDEX_COUNT && 0 <= len <= line.Length
    modifies indexList
    ensures var idx := FaceIndices(line[..len]);
      count == (if |idx| > MAX_FACE_INDEX_COUNT then None else Some(|idx|))
      && (|idx| <= MAX_FACE_INDEX_COUNT ==> indexList[..|idx|] == idx)
  {
    ghost var u := line[..len];
    ghost var done: seq<int> := [];
    var n := 0;
    var i := 0;
    while i < len
      invariant 0 <= i <= len && n == |done| <= MAX_FACE_INDEX_COUNT
      invariant indexList[..n] == done && line[..len] == u
      invariant FaceIndices(u) == done + FaceIndices(u[i..])
    {
      ReadStep(u, i, done);
      if line[i] == ' ' {
        if n >= MAX_FACE_INDEX_COUNT {
          return None;
        }
        assert line[i..len] == u[i..];
        var index := Atoi(line[i..len]) - 1;
        indexList[n] := index;
        n := n + 1;
        done := done + [index];
      }
      i := i + 1;
    }
    assert u[len..] == [];
    return Some(n);
  }

  /** The indices read so far, the one the next character adds, and the rest. */
  lemma ReadStep(u: seq<char>, i: int, done: seq<int>)
    requires 0 <= i < |u| && FaceIndices(u) == done + FaceIndices(u[i..])
    ensures u[i] == ' ' ==> FaceIndices(u) == (done + [Atoi(u[i..]) - 1]) + FaceIndices(u[i + 1..])
    ensures u[i] != ' ' ==> FaceIndices(u) == done + FaceIndices(u[i + 1..])
  {
    FaceIndicesAt(u, i);
    if u[i] == ' ' {
      Regroup(FaceIndices(u), done, Atoi(u[i..]) - 1, FaceIndices(u[i..]), FaceIndices(u[i + 1..]));
    }
  }

  lemma Regroup(all: seq<int>, done: seq<int>, x: int, rest: seq<int>, after: seq<int>)
    requires all == done + rest && rest == [x] + after
    ensures all == (done + [x]) + after
  {
  }

  /** One step of `FaceIndices` along the string. */
  lemma FaceIndicesAt(u: seq<char>, i: int)
    requires 0 <= i < |u|
    ensures u[i] == ' ' ==> FaceIndices(u[i..]) == [Atoi(u[i..]) - 1] + FaceIndices(u[i + 1..])
    ensures u[i] != ' ' ==> FaceIndices(u[i..]) == FaceIndices(u[i + 1..])
  {
    assert u[i..][1..] == u[i + 1..];
  }

  /**
   * The body of the loading loop for the line in `line`: the tag the line
   * starts with picks the one command that applies (no two tags can prefix
   * the same line), and the command updates the mesh, the attribute store
   * and the error count as `Step` says.
   */
  method ProcessLine(mesh: Mesh, store: AttributeStore, line: array<char>, scan: Scanners, errors: int)
    returns (errors': int)
    requires mesh.Valid() && store.Valid() && line.Length == MAX_LINE_LENGTH
    modifies mesh, mesh.positions, mesh.normals, mesh.uvs, mesh.objNames, mesh.groupMaterials, mesh.groupOffsets
    modifies store, store.positions, store.normals, store.uvs, line
    ensures mesh.Valid() && store.Valid()
    ensures Load(mesh.Data(), store.Data(), errors')
      == Step(Load(old(mesh.Data()), old(store.Data()), errors), CStr(old(line[..])), scan)
  {
    var t := CStr(line[..]);
    var kind := KindOf(t);
    if kind == PositionKind || kind == NormalKind || kind == UvKind {
      errors' := AttributeCommand(store, t, scan, mesh.Data(), errors);
    } else {
      errors' := MeshCommand(mesh, line, scan, store.Data(), errors);
    }
  }

  /** The commands that store a vertex attribute: `v `, `vn ` and `vt `. */
  method AttributeCommand(store: AttributeStore, t: seq<char>, scan: Scanners, ghost m: MeshData, errors: int)
    returns (errors': int)
    requires store.Valid()
    requires KindOf(t) == PositionKind || KindOf(t) == NormalKind || KindOf(t) == UvKind
    modifies store, store.positions, store.normals, store.uvs
    ensures store.Valid()
    ensures Load(m, store.Data(), errors') == Step(Load(m, old(store.Data()), errors), t, scan)
  {
    match KindOf(t)
    case PositionKind =>
      errors' := PositionCommand(store, t, scan, m, errors);
    case NormalKind =>
      errors' := NormalCommand(store, t, scan, m, errors);
    case UvKind =>
      errors' := UvCommand(store, t, scan, m, errors);
  }

  /** The commands that change the mesh, and the lines that change nothing. */
  method MeshCommand(mesh: Mesh, line: array<char>, scan: Scanners, attrs: Attributes, errors: int)
    returns (errors': int)
    requires mesh.Valid()
    requires var k := KindOf(CStr(line[..])); k != PositionKind && k != NormalKind && k != UvKind
    modifies mesh, mesh.positions, mesh.normals, mesh.uvs, mesh.objNames, mesh.groupMaterials, mesh.groupOffsets, line
    ensures mesh.Valid()
    ensures Load(mesh.Data(), attrs, errors') == Step(Load(old(mesh.Data()), attrs, errors), CStr(old(line[..])), scan)
  {
    var t := CStr(line[..]);
    match KindOf(t)
    case ObjectKind =>
      errors' := ObjectCommand(mesh, t, attrs, errors);
    case FaceKind =>
      errors' := FaceCommand(mesh, line, attrs, errors);
    case MaterialLibKind =>
      errors' := MaterialLibCommand(mesh, t, attrs, errors);
    case UseMaterialKind =>
      errors' := UseMaterialCommand(mesh, t, attrs, errors);
    case OtherKind =>
      errors' := errors;
  }

  /** The `o ` branch: a new object name, unless 1000 are recorded. */
  method ObjectCommand(mesh: Mesh, t: seq<char>, ghost attrs: Attributes, errors: int) returns (errors': int)
    requires mesh.Valid()
    modifies mesh, mesh.objNames
    ensures mesh.Valid()
    ensures Load(mesh.Data(), attrs, errors') == ObjectLine(Load(old(mesh.Data()), attrs, errors), t)
  {
    errors' := errors;
    if mesh.objCount >= MAX_OBJ_COUNT {
      return;
    }
    mesh.AddObject(Name(t, |OBJECT_TAG|));
  }

  /** The `v ` branch: store the scanned position while the stream has room. */
  method PositionCommand(store: AttributeStore, t: seq<char>, scan: Scanners, ghost m: MeshData, errors: int)
    returns (errors': int)
    requires store.Valid()
    modifies store, store.positions
    ensures store.Valid()
    ensures Load(m, store.Data(), errors') == PositionLine(Load(m, old(store.Data()), errors), t, scan)
  {
    errors' := errors;
    if !StreamAccepts(store.positionCount) {
      return;
    }
    var sc := scan.position(t);
    store.AddPosition(sc.value);
    errors' := errors + ScanError(sc.count, 3);
  }

  /** The `vn ` branch: store the scanned normal while the stream has room. */
  method NormalCommand(store: AttributeStore, t: seq<char>, scan: Scanners, ghost m: MeshData, errors: int)
    returns (errors': int)
    requires store.Valid()
    modifies store, store.normals
    ensures store.Valid()
    ensures Load(m, store.Data(), errors') == NormalLine(Load(m, old(store.Data()), errors), t, scan)
  {
    errors' := errors;
    if !StreamAccepts(store.normalCount) {
      return;
    }
    var sc := scan.normal(t);
    store.AddNormal(sc.value);
    errors' := errors + ScanError(sc.count, 3);
  }

  /** The `vt ` branch: store the scanned coordinate, `v` flipped, while the stream has room. */
  method UvCommand(store: AttributeStore, t: seq<char>, scan: Scanners, ghost m: MeshData, errors: int)
    returns (errors': int)
    requires store.Valid()
    modifies store, store.uvs
    ensures store.Valid()
    ensures Load(m, store.Data(), errors') == UvLine(Load(m, old(store.Data()), errors), t, scan)
  {
    errors' := errors;
    if !StreamAccepts(store.uvCount) {
      return;
    }
    var sc := scan.uv(t);
    store.AddUv(Vec2(sc.value.u, 1.0 - sc.value.v));
    errors' := errors + ScanError(sc.count, 2);
  }

  /**
   * The `f ` branch: parse the indices into a fresh index list (its count
   * stays 0 when the list overflows) and append the face's fan.
   */
  method FaceCommand(mesh: Mesh, line: array<char>, attrs: Attributes, errors: int) returns (errors': int)
    requires mesh.Valid()
    modifies mesh, mesh.positions, mesh.normals, mesh.uvs, line
    ensures mesh.Valid()
    ensures Load(mesh.Data(), attrs, errors') == FaceLine(Load(old(mesh.Data()), attrs, errors), CStr(old(line[..])))
  {
    ghost var f := ParseFace(CStr(line[..]));
    ghost var m := mesh.Data();
    var indexList := new int[MAX_FACE_INDEX_COUNT];
    var indexCount := 0;
    var err, count := ParseFaceLine(indexList, line);
    if count.Some? {
      indexCount := count.value;
    }
    assert indexList[..indexCount] == if f.indices.Some? then f.indices.value else [];
    assert mesh.Data() == m;
    mesh.AppendFace(attrs, indexList[..indexCount]);
    errors' := errors + err;
  }

  /** The `mtllib ` branch. */
  method MaterialLibCommand(mesh: Mesh, t: seq<char>, ghost attrs: Attributes, errors: int) returns (errors': int)
    requires mesh.Valid()
    modifies mesh
    ensures mesh.Valid()
    ensures Load(mesh.Data(), attrs, errors') == MaterialLibLine(Load(old(mesh.Data()), attrs, errors), t)
  {
    mesh.SetMaterialLib(Name(t, |MATERIAL_LIB_TAG|));
    errors' := errors;
  }

  /** The `usemtl ` branch: a new material group, unless 64 are open. */
  method UseMaterialCommand(mesh: Mesh, t: seq<char>, ghost attrs: Attributes, errors: int) returns (errors': int)
    requires mesh.Valid()
    modifies mesh, mesh.groupMaterials, mesh.groupOffsets
    ensures mesh.Valid()
    ensures Load(mesh.Data(), attrs, errors') == UseMaterialLine(Load(old(mesh.Data()), attrs, errors), t)
  {
    errors' := errors;
    if mesh.groupCount >= MAX_MATERIAL_GROUP_COUNT {
      return;
    }
    mesh.AddGroup(Name(t, |USE_MATERIAL_TAG|));
  }

  /**
   * `load_wavefront(out, res)`: allocate the output and the local storage,
   * then load and process one line at a time until the cursor passes the
   * end of the resource. The mesh and the error count are those of
   * `LoadObj`.
   */
  method LoadWavefront(data: seq<char>, scan: Scanners) returns (mesh: Mesh, errors: int)
    ensures mesh.Valid()
    ensures mesh.Data() == LoadObj(data, scan).mesh && errors == LoadObj(data, scan).errors
  {
    var line := new char[MAX_LINE_LENGTH](_ => NUL);
    var cursor := 0;
    errors := 0;
    mesh := new Mesh();
    var store := new AttributeStore();
    while cursor < |data|
      invariant 0 <= cursor && mesh.Valid() && store.Valid()
      invariant LoadObj(data, scan) == Run(Load(mesh.Data(), store.Data(), errors), Lines(data, Clamp(cursor, |data|)), scan)
      decreases |data| - cursor
    {
      cursor, errors := LoadLine(mesh, store, line, data, cursor, scan, errors);
    }
  }

  /** The cursor, or the end of the data once the cursor has passed it. */
  function Clamp(cursor: int, n: int): int
  {
    if cursor <= n then cursor else n
  }

  /**
   * One turn of the loading loop: load the line at `cursor` into the
   * buffer, step the cursor past it and process it. What is left to load
   * leads to the same final state as before.
   */
  method LoadLine(mesh: Mesh, store: AttributeStore, line: array<char>, data: seq<char>, cursor: int,
                  scan: Scanners, errors: int)
    returns (cursor': int, errors': int)
    requires mesh.Valid() && store.Valid() && line.Length == MAX_LINE_LENGTH && 0 <= cursor < |data|
    modifies mesh, mesh.positions, mesh.normals, mesh.uvs, mesh.objNames, mesh.groupMaterials, mesh.groupOffsets
    modifies store, store.positions, store.normals, store.uvs, line
    ensures mesh.Valid() && store.Valid() && cursor < cursor'
    ensures Run(Load(old(mesh.Data()), old(store.Data()), errors), Lines(data, cursor), scan)
      == Run(Load(mesh.Data(), store.Data(), errors'), Lines(data, Clamp(cursor', |data|)), scan)
  {
    ghost var st := Load(mesh.Data(), store.Data(), errors);
    var i := ReadLine(data, cursor, line);
    ghost var buf := line[..];
    assert Load(mesh.Data(), store.Data(), errors) == st;
    cursor' := cursor + i + 1;
    errors' := ProcessLine(mesh, store, line, scan, errors);
    NextLine(st, data, cursor, buf, Load(mesh.Data(), store.Data(), errors'), scan);
  }

  /** Processing the line at `cursor` leaves the lines after it to load. */
  lemma NextLine(st: Load, data: seq<char>, cursor: int, buf: seq<char>, st': Load, scan: Scanners)
    requires 0 <= cursor < |data| && CStr(buf) == LineAt(data, cursor) && st' == Step(st, CStr(buf), scan)
    ensures Run(st, Lines(data, cursor), scan) == Run(st', Lines(data, NextCursor(data, cursor)), scan)
  {
    RunLines(st, data, cursor, scan);
  }

  /** The loop's next line: the line at `cursor`, then the lines after it. */
  lemma RunLines(st: Load, data: seq<char>, cursor: int, scan: Scanners)
    requires 0 <= cursor < |data|
    ensures Run(st, Lines(data, cursor), scan)
      == Run(Step(st, LineAt(data, cursor), scan), Lines(data, NextCursor(data, cursor)), scan)
  {
    var ls := Lines(data, cursor);
    assert ls == [LineAt(data, cursor)] + Lines(data, NextCursor(data, cursor));
    assert ls[1..] == Lines(data, NextCursor(data, cursor));
  }
}
