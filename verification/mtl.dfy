/**
 * `load_material_lib`: a material library (`.mtl`) read line by line into
 * 32 zeroed material slots. A `newmtl ` line names the next slot; every
 * property line after it updates the material most recently named; lines
 * before the first `newmtl ` are ignored. `sscanf` is abstract, as in
 * `ObjFormat`: it is passed in as functions giving the conversion count and
 * the converted values.
 */
module MaterialLibrary {
  import opened Geometry
  import opened CStrings
  import opened ObjFormat
  import ObjLoader

  const MAX_MATERIAL_COUNT: int := 32

  const NEWMTL_TAG: seq<char> := "newmtl "
  const NS_TAG: seq<char> := "Ns "
  const KA_TAG: seq<char> := "Ka "
  const KD_TAG: seq<char> := "Kd "
  const KS_TAG: seq<char> := "Ks "
  const KE_TAG: seq<char> := "Ke "
  const NI_TAG: seq<char> := "Ni "
  const D_TAG: seq<char> := "d "
  const ILLUM_TAG: seq<char> := "illum "
  const MAP_KD_TAG: seq<char> := "map_Kd "

  /** `material_t`; `mapKd` is `None` while `map_kd` is the null pointer. */
  datatype Material = Material(ns: real, ka: Vec3, kd: Vec3, ks: Vec3, ke: Vec3, ni: real, d: real,
                               illum: int, mapKd: Option<seq<char>>)

  /** A slot after the `memset` to zero. */
  const ZeroMaterial: Material := Material(0.0, Zero3, Zero3, Zero3, Zero3, 0.0, 0.0, 0, None)

  /** What one `sscanf` call with one `%f` or `%d` returns and converts. */
  datatype Scan1 = Scan1(count: int, value: real)
  datatype ScanInt = ScanInt(count: int, value: int)

  /** The `sscanf` calls of the property parsers, one per format. */
  datatype MtlScanners = MtlScanners(
    ns: seq<char> -> Scan1,
    ka: seq<char> -> Scan3,
    kd: seq<char> -> Scan3,
    ks: seq<char> -> Scan3,
    ke: seq<char> -> Scan3,
    ni: seq<char> -> Scan1,
    d: seq<char> -> Scan1,
    illum: seq<char> -> ScanInt)

  // ---------------------------------------------------------------------
  // Property lines

  /** `sscanf` stores a converted value and leaves the target alone otherwise. */
  function Merge1(prev: real, sc: Scan1): real
  {
    if sc.count >= 1 then sc.value else prev
  }

  function MergeInt(prev: int, sc: ScanInt): int
  {
    if sc.count >= 1 then sc.value else prev
  }

  /** The first `sc.count` components are converted; the rest keep their old value. */
  function Merge3(prev: Vec3, sc: Scan3): (r: Vec3)
    ensures sc.count >= 3 ==> r == sc.value
    ensures sc.count <= 0 ==> r == prev
  {
    Vec3(if sc.count >= 1 then sc.value.x else prev.x,
         if sc.count >= 2 then sc.value.y else prev.y,
         if sc.count >= 3 then sc.value.z else prev.z)
  }

  /** The properties a line can set. */
  datatype Property = NsProp | KaProp | KdProp | KsProp | KeProp | NiProp | DProp | IllumProp | MapKdProp | NoProp

  /**
   * The property a line sets, by its tag. The source tests every tag in
   * turn; `PropertyTagDecides` shows that no line starts with two of them,
   * so at most one test succeeds.
   */
  function PropertyOf(t: seq<char>): Property
  {
    if StartsWith(t, NS_TAG) then NsProp
    else if StartsWith(t, KA_TAG) then KaProp
    else if StartsWith(t, KD_TAG) then KdProp
    else if StartsWith(t, KS_TAG) then KsProp
    else if StartsWith(t, KE_TAG) then KeProp
    else if StartsWith(t, NI_TAG) then NiProp
    else if StartsWith(t, D_TAG) then DProp
    else if StartsWith(t, ILLUM_TAG) then IllumProp
    else if StartsWith(t, MAP_KD_TAG) then MapKdProp
    else NoProp
  }

  /** The material after the property line `t` (see `ApplyPropertyFrame`). */
  function ApplyProperty(m: Material, t: seq<char>, scan: MtlScanners): Material
  {
    match PropertyOf(t)
    case NsProp => m.(ns := Merge1(m.ns, scan.ns(t)))
    case KaProp => m.(ka := Merge3(m.ka, scan.ka(t)))
    case KdProp => m.(kd := Merge3(m.kd, scan.kd(t)))
    case KsProp => m.(ks := Merge3(m.ks, scan.ks(t)))
    case KeProp => m.(ke := Merge3(m.ke, scan.ke(t)))
    case NiProp => m.(ni := Merge1(m.ni, scan.ni(t)))
    case DProp => m.(d := Merge1(m.d, scan.d(t)))
    case IllumProp => m.(illum := MergeInt(m.illum, scan.illum(t)))
    case MapKdProp => m.(mapKd := Some(Name(t, |MAP_KD_TAG|)))
    case NoProp => m
  }

  /**
   * A property line rescans the one field its tag names and leaves every
   * other field as it was; a line with no property tag changes nothing.
   */
  lemma ApplyPropertyFrame(m: Material, t: seq<char>, scan: MtlScanners)
    ensures var r := ApplyProperty(m, t, scan); var p := PropertyOf(t);
      (p != NsProp ==> r.ns == m.ns) && (p != KaProp ==> r.ka == m.ka)
      && (p != KdProp ==> r.kd == m.kd) && (p != KsProp ==> r.ks == m.ks)
      && (p != KeProp ==> r.ke == m.ke) && (p != NiProp ==> r.ni == m.ni)
      && (p != DProp ==> r.d == m.d) && (p != IllumProp ==> r.illum == m.illum)
      && (p != MapKdProp ==> r.mapKd == m.mapKd)
      && (p == MapKdProp ==> r.mapKd == Some(Name(t, |MAP_KD_TAG|)))
      && (p == NoProp ==> r == m)
  {
  }

  /** What the property parser of `t` adds to `errors`. */
  function PropertyError(t: seq<char>, scan: MtlScanners): (e: int)
    ensures e == 0 || e == 1
  {
    match PropertyOf(t)
    case NsProp => ScanError(scan.ns(t).count, 1)
    case KaProp => ScanError(scan.ka(t).count, 3)
    case KdProp => ScanError(scan.kd(t).count, 3)
    case KsProp => ScanError(scan.ks(t).count, 3)
    case KeProp => ScanError(scan.ke(t).count, 3)
    case NiProp => ScanError(scan.ni(t).count, 1)
    case DProp => ScanError(scan.d(t).count, 1)
    case IllumProp => ScanError(scan.illum(t).count, 1)
    case MapKdProp => 0
    case NoProp => 0
  }

  // ---------------------------------------------------------------------
  // The line loop

  /**
   * `material_lib_t`: the names given so far (their number is
   * `material_count`) and all 32 material slots.
   */
  datatype Library = Library(names: seq<seq<char>>, materials: seq<Material>)

  datatype MtlState = MtlState(lib: Library, errors: int)

  /** Before the first line: no names, every slot zeroed, no errors. */
  function MtlStart(): MtlState
  {
    MtlState(Library([], seq(MAX_MATERIAL_COUNT, _ => ZeroMaterial)), 0)
  }

  /** A `newmtl ` line below the cap names the next slot. */
  function NewMaterialLine(st: MtlState, t: seq<char>): MtlState
  {
    if StartsWith(t, NEWMTL_TAG) then st.(lib := st.lib.(names := st.lib.names + [Name(t, |NEWMTL_TAG|)]))
    else st
  }

  /**
   * Any line, once a material is named, updates the current material (slot
   * `material_count - 1`) and the error count. The slot always exists
   * (`MtlInv`); the guard only keeps the function total.
   */
  function PropertyLine(st: MtlState, t: seq<char>, scan: MtlScanners): MtlState
  {
    var n := |st.lib.names|;
    if n == 0 || n > |st.lib.materials| then st
    else
      var ms := st.lib.materials;
      st.(lib := st.lib.(materials := ms[n - 1 := ApplyProperty(ms[n - 1], t, scan)]),
          errors := st.errors + PropertyError(t, scan))
  }

  /**
   * One line of `load_material_lib`: a `newmtl ` line at the cap of 32 is
   * skipped; otherwise the line may name a new material, and then, unless no
   * material is named yet, the property tests run on it.
   */
  function MtlStep(st: MtlState, t: seq<char>, scan: MtlScanners): MtlState
  {
    if StartsWith(t, NEWMTL_TAG) && |st.lib.names| >= MAX_MATERIAL_COUNT then st
    else PropertyLine(NewMaterialLine(st, t), t, scan)
  }

  function MtlRun(st: MtlState, ls: seq<seq<char>>, scan: MtlScanners): MtlState
    decreases |ls|
  {
    if |ls| == 0 then st else MtlRun(MtlStep(st, ls[0], scan), ls[1..], scan)
  }

  /** `load_material_lib`: the library and the error count of a whole resource. */
  function LoadMtl(data: seq<char>, scan: MtlScanners): MtlState
  {
    MtlRun(MtlStart(), Lines(data, 0), scan)
  }

  // ---------------------------------------------------------------------
  // Properties

  /** A line whose first character is not a tag's does not start with that tag. */
  lemma FirstCharExcludes(t: seq<char>, tag: seq<char>)
    requires |tag| >= 1 && tag[0] != NUL && (|t| == 0 || t[0] != tag[0])
    ensures !StartsWith(t, tag)
  {
    StartsWithIsPrefix(t, tag);
  }

  /** A line that starts with a tag starts with the tag's first two characters. */
  lemma LeadingChars(t: seq<char>, tag: seq<char>)
    requires |tag| >= 2 && tag[0] != NUL && tag[1] != NUL
    ensures StartsWith(t, tag) ==> |t| >= 2 && t[0] == tag[0] && t[1] == tag[1]
  {
    StartsWithIsPrefix(t, tag);
  }

  /** A line that starts with neither `N` nor `K` starts with none of the six tags that do. */
  lemma NotUpperTag(t: seq<char>)
    requires |t| == 0 || (t[0] != 'N' && t[0] != 'K')
    ensures !StartsWith(t, NS_TAG) && !StartsWith(t, KA_TAG) && !StartsWith(t, KD_TAG)
    ensures !StartsWith(t, KS_TAG) && !StartsWith(t, KE_TAG) && !StartsWith(t, NI_TAG)
  {
    FirstCharExcludes(t, NS_TAG);
    FirstCharExcludes(t, KA_TAG);
    FirstCharExcludes(t, KD_TAG);
    FirstCharExcludes(t, KS_TAG);
    FirstCharExcludes(t, KE_TAG);
    FirstCharExcludes(t, NI_TAG);
  }

  /**
   * A line that starts with a property's tag sets that property. Hence no
   * line starts with two property tags, and the source's independent tests
   * and the `else if` chain of `PropertyOf` agree.
   */
  lemma PropertyTagDecides(t: seq<char>)
    ensures StartsWith(t, NS_TAG) ==> PropertyOf(t) == NsProp
    ensures StartsWith(t, KA_TAG) ==> PropertyOf(t) == KaProp
    ensures StartsWith(t, KD_TAG) ==> PropertyOf(t) == KdProp
    ensures StartsWith(t, KS_TAG) ==> PropertyOf(t) == KsProp
    ensures StartsWith(t, KE_TAG) ==> PropertyOf(t) == KeProp
    ensures StartsWith(t, NI_TAG) ==> PropertyOf(t) == NiProp
    ensures StartsWith(t, D_TAG) ==> PropertyOf(t) == DProp
    ensures StartsWith(t, ILLUM_TAG) ==> PropertyOf(t) == IllumProp
    ensures StartsWith(t, MAP_KD_TAG) ==> PropertyOf(t) == MapKdProp
  {
    LeadingChars(t, NS_TAG);
    LeadingChars(t, KA_TAG);
    LeadingChars(t, KD_TAG);
    LeadingChars(t, KS_TAG);
    LeadingChars(t, KE_TAG);
    LeadingChars(t, NI_TAG);
    LeadingChars(t, D_TAG);
    LeadingChars(t, ILLUM_TAG);
    LeadingChars(t, MAP_KD_TAG);
  }

  /** No line starting with `newmtl ` starts with a property tag. */
  lemma NewMaterialTagApart(t: seq<char>)
    requires StartsWith(t, NEWMTL_TAG)
    ensures PropertyOf(t) == NoProp
  {
    StartsWithIsPrefix(t, NEWMTL_TAG);
    assert t[0] == 'n';
    NotUpperTag(t);
    FirstCharExcludes(t, D_TAG);
    FirstCharExcludes(t, ILLUM_TAG);
    FirstCharExcludes(t, MAP_KD_TAG);
  }

  /**
   * What stays true from line to line: 32 slots, at most 32 names, and every
   * slot past the named ones still zero.
   */
  ghost predicate MtlInv(st: MtlState)
  {
    |st.lib.materials| == MAX_MATERIAL_COUNT && |st.lib.names| <= MAX_MATERIAL_COUNT
    && (forall j :: |st.lib.names| <= j < MAX_MATERIAL_COUNT ==> st.lib.materials[j] == ZeroMaterial)
  }

  /**
   * One line keeps the invariant; it never removes a name, touches at most
   * the current slot, and adds at most one error.
   */
  lemma MtlStepKeepsInv(st: MtlState, t: seq<char>, scan: MtlScanners)
    requires MtlInv(st)
    ensures var st' := MtlStep(st, t, scan);
      MtlInv(st') && st.lib.names <= st'.lib.names && |st'.lib.names| <= |st.lib.names| + 1
      && st.errors <= st'.errors <= st.errors + 1
      && (forall j :: 0 <= j < |st'.lib.names| - 1 ==> st'.lib.materials[j] == st.lib.materials[j])
  {
    var st1 := NewMaterialLine(st, t);
    if StartsWith(t, NEWMTL_TAG) && |st.lib.names| >= MAX_MATERIAL_COUNT {
    } else if StartsWith(t, NEWMTL_TAG) {
      assert st.lib.names <= st1.lib.names;
    }
  }

  /**
   * A `newmtl ` line below the cap names a material that starts zeroed: the
   * new current slot holds `ZeroMaterial`.
   */
  lemma NewMaterialStartsZeroed(st: MtlState, t: seq<char>, scan: MtlScanners)
    requires MtlInv(st) && StartsWith(t, NEWMTL_TAG) && |st.lib.names| < MAX_MATERIAL_COUNT
    ensures var st' := MtlStep(st, t, scan);
      st'.lib.names == st.lib.names + [Name(t, |NEWMTL_TAG|)]
      && st'.lib.materials == st.lib.materials && st'.lib.materials[|st.lib.names|] == ZeroMaterial
      && st'.errors == st.errors
  {
    NewMaterialTagApart(t);
    NoPropertyLine(NewMaterialLine(st, t), t, scan);
  }

  /** A line with no property tag leaves the library and the error count alone. */
  lemma NoPropertyLine(st: MtlState, t: seq<char>, scan: MtlScanners)
    requires PropertyOf(t) == NoProp
    ensures PropertyLine(st, t, scan) == st
  {
    var n := |st.lib.names|;
    NoPropertyNoError(t, scan);
    if 0 < n <= |st.lib.materials| {
      var ms := st.lib.materials;
      NoPropertyNoChange(ms[n - 1], t, scan);
      UpdateSame(ms, n - 1);
    }
  }

  lemma NoPropertyNoChange(m: Material, t: seq<char>, scan: MtlScanners)
    requires PropertyOf(t) == NoProp
    ensures ApplyProperty(m, t, scan) == m
  {
  }

  lemma NoPropertyNoError(t: seq<char>, scan: MtlScanners)
    requires PropertyOf(t) == NoProp
    ensures PropertyError(t, scan) == 0
  {
  }

  /** Writing back the element already there leaves a sequence as it was. */
  lemma UpdateSame<T>(s: seq<T>, i: nat)
    requires i < |s|
    ensures s[i := s[i]] == s
  {
  }

  /**
   * A line that is not `newmtl ` changes neither the names nor any slot but
   * the current one, which becomes `ApplyProperty` of its old value.
   */
  lemma PropertyUpdatesCurrent(st: MtlState, t: seq<char>, scan: MtlScanners)
    requires MtlInv(st) && !StartsWith(t, NEWMTL_TAG) && |st.lib.names| > 0
    ensures var st' := MtlStep(st, t, scan); var n := |st.lib.names|;
      st'.lib.names == st.lib.names
      && st'.lib.materials == st.lib.materials[n - 1 := ApplyProperty(st.lib.materials[n - 1], t, scan)]
      && st'.errors == st.errors + PropertyError(t, scan)
  {
  }

  /** The whole loop keeps the invariant, and the error count grows by at most one per line. */
  lemma {:induction false} MtlRunKeepsInv(st: MtlState, ls: seq<seq<char>>, scan: MtlScanners)
    requires MtlInv(st)
    ensures var st' := MtlRun(st, ls, scan);
      MtlInv(st') && st.lib.names <= st'.lib.names && st.errors <= st'.errors <= st.errors + |ls|
    decreases |ls|
  {
    if |ls| > 0 {
      var st1 := MtlStep(st, ls[0], scan);
      MtlStepKeepsInv(st, ls[0], scan);
      MtlRunKeepsInv(st1, ls[1..], scan);
      var st' := MtlRun(st1, ls[1..], scan);
      PrefixTransitive(st.lib.names, st1.lib.names, st'.lib.names);
    }
  }

  /** A loaded library has at most 32 names, and its unnamed slots are zero. */
  lemma LoadMtlBounded(data: seq<char>, scan: MtlScanners)
    ensures MtlInv(LoadMtl(data, scan)) && LoadMtl(data, scan).errors >= 0
  {
    MtlRunKeepsInv(MtlStart(), Lines(data, 0), scan);
  }

  /**
   * Lines before the first `newmtl ` are ignored: with no material named,
   * a run of lines none of which starts with `newmtl ` changes nothing.
   */
  lemma {:induction false} IgnoredBeforeFirstMaterial(st: MtlState, ls: seq<seq<char>>, scan: MtlScanners)
    requires |st.lib.names| == 0
    requires forall i :: 0 <= i < |ls| ==> !StartsWith(ls[i], NEWMTL_TAG)
    ensures MtlRun(st, ls, scan) == st
    decreases |ls|
  {
    if |ls| > 0 {
      assert MtlStep(st, ls[0], scan) == st;
      IgnoredBeforeFirstMaterial(st, ls[1..], scan);
    }
  }

  // ---------------------------------------------------------------------
  // The loader

  /** `material_lib_t` as the loader fills it: 32 name slots, 32 material slots and the count. */
  class MaterialLib {
    const names: array<seq<char>>
    const materials: array<Material>
    var count: int

    ghost predicate Valid()
      reads this
    {
      names.Length == MAX_MATERIAL_COUNT && materials.Length == MAX_MATERIAL_COUNT
      && 0 <= count <= MAX_MATERIAL_COUNT
    }

    ghost function Data(): Library
      requires Valid()
      reads this, names, materials
    {
      Library(names[..count], materials[..])
    }

    /** The allocation block of `load_material_lib`, with every material zeroed. */
    constructor ()
      ensures Valid() && Data() == MtlStart().lib
      ensures fresh(names) && fresh(materials)
    {
      names := new seq<char>[MAX_MATERIAL_COUNT](_ => []);
      materials := new Material[MAX_MATERIAL_COUNT](_ => ZeroMaterial);
      count := 0;
    }

    /** Name the next material. */
    method AddMaterial(name: seq<char>)
      requires Valid() && count < MAX_MATERIAL_COUNT
      modifies this, names
      ensures Valid() && Data() == old(Data()).(names := old(Data()).names + [name])
    {
      names[count] := name;
      count := count + 1;
    }

    /**
     * The property tests on the current material,
     * `material_list + (material_count - 1)`, adding the parser's result to
     * `errors`.
     */
    method UpdateCurrent(t: seq<char>, scan: MtlScanners, errors: int) returns (errors': int)
      requires Valid() && count > 0
      modifies materials
      ensures Valid()
      ensures MtlState(Data(), errors') == PropertyLine(MtlState(old(Data()), errors), t, scan)
    {
      var current := materials[count - 1];
      var updated := ApplyProperty(current, t, scan);
      materials[count - 1] := updated;
      errors' := errors + PropertyError(t, scan);
    }
  }

  /** The body of the loading loop for the line in `line`. */
  method MtlLine(lib: MaterialLib, line: array<char>, scan: MtlScanners, errors: int) returns (errors': int)
    requires lib.Valid()
    modifies lib, lib.names, lib.materials
    ensures lib.Valid()
    ensures MtlState(lib.Data(), errors') == MtlStep(MtlState(old(lib.Data()), errors), CStr(line[..]), scan)
  {
    ghost var st := MtlState(lib.Data(), errors);
    var t := CStr(line[..]);
    errors' := errors;
    if StartsWith(t, NEWMTL_TAG) {
      if lib.count >= MAX_MATERIAL_COUNT {
        return;
      }
      lib.AddMaterial(Name(t, |NEWMTL_TAG|));
    }
    ghost var named := MtlState(lib.Data(), errors);
    assert named == NewMaterialLine(st, t);
    if lib.count <= 0 {
      return;
    }
    errors' := lib.UpdateCurrent(t, scan, errors);
  }

  /**
   * `load_material_lib(out, res)`: the library and the error count are those
   * of `LoadMtl`.
   */
  method LoadMaterialLib(data: seq<char>, scan: MtlScanners) returns (lib: MaterialLib, errors: int)
    ensures lib.Valid() && MtlState(lib.Data(), errors) == LoadMtl(data, scan)
  {
    errors := 0;
    var cursor := 0;
    var line := new char[MAX_LINE_LENGTH](_ => NUL);
    lib := new MaterialLib();
    while cursor < |data|
      invariant 0 <= cursor && lib.Valid()
      invariant LoadMtl(data, scan) == MtlRun(MtlState(lib.Data(), errors), Lines(data, ObjLoader.Clamp(cursor, |data|)), scan)
      decreases |data| - cursor
    {
      cursor, errors := MtlLoadLine(lib, line, data, cursor, scan, errors);
    }
  }

  /** One turn of the loading loop: load the line at `cursor`, step past it and process it. */
  method MtlLoadLine(lib: MaterialLib, line: array<char>, data: seq<char>, cursor: int, scan: MtlScanners, errors: int)
    returns (cursor': int, errors': int)
    requires lib.Valid() && line.Length == MAX_LINE_LENGTH && 0 <= cursor < |data|
    modifies lib, lib.names, lib.materials, line
    ensures lib.Valid() && cursor < cursor'
    ensures MtlRun(MtlState(old(lib.Data()), errors), Lines(data, cursor), scan)
      == MtlRun(MtlState(lib.Data(), errors'), Lines(data, ObjLoader.Clamp(cursor', |data|)), scan)
  {
    ghost var st := MtlState(lib.Data(), errors);
    var i := ObjLoader.ReadLine(data, cursor, line);
    ghost var t := CStr(line[..]);
    assert t == LineAt(data, cursor);
    assert MtlState(lib.Data(), errors) == st;
    cursor' := cursor + i + 1;
    assert ObjLoader.Clamp(cursor', |data|) == NextCursor(data, cursor);
    errors' := MtlLine(lib, line, scan, errors);
    MtlNextLine(st, data, cursor, t, MtlState(lib.Data(), errors'), scan);
  }

  /** Processing the line at `cursor` leaves the lines after it to load. */
  lemma MtlNextLine(st: MtlState, data: seq<char>, cursor: int, t: seq<char>, st': MtlState, scan: MtlScanners)
    requires 0 <= cursor < |data| && t == LineAt(data, cursor) && st' == MtlStep(st, t, scan)
    ensures MtlRun(st, Lines(data, cursor), scan) == MtlRun(st', Lines(data, NextCursor(data, cursor)), scan)
  {
    var ls := Lines(data, cursor);
    assert ls == [LineAt(data, cursor)] + Lines(data, NextCursor(data, cursor));
    assert ls[1..] == Lines(data, NextCursor(data, cursor));
  }
}
