/**
 * The scene and geometry bookkeeping of the editor: the vertex arena, the
 * model table, the entity table with its two role-index lists, and pick
 * selection.
 *
 * The global render state is split along the groups its declaration marks
 * (VERTEX TABLE, MODEL TABLE, ENTITY TABLE, MODEL ENTITY TABLE, LIGHT ENTITY
 * TABLE), one class per group. `ModelState` holds the vertex and model
 * tables with the editor's `model_file_list` and `model_file_count`;
 * `EntityState` holds the entity table, the two role lists, the light model,
 * the highlight and the editor's `current_entity`. Fixed-size tables are
 * arrays that are never replaced; the vertex table's three arrays are
 * replaced by larger ones when it grows.
 */
module Scene {
  import opened Geometry
  import opened StateUtil
  import opened Roles

  /** Capacity of the model table. */
  const MAX_MODEL_COUNT: int := 32
  /** Capacity of the entity table and of each role-index list. */
  const MAX_ENTITY_COUNT: int := 1024
  /** The largest finite single-precision float: "no hit". */
  const FLT_MAX: real := 340282346638528859811704183484516925440.0

  /** `r` is `cap` doubled zero or more times. */
  ghost predicate DoubledFrom(cap: int, r: int)
    requires cap > 0
    decreases r
  {
    if r <= cap then r == cap else r % 2 == 0 && DoubledFrom(cap, r / 2)
  }

  lemma {:induction false} DoubledFromHalf(cap: int, r: int)
    requires cap > 0 && DoubledFrom(2 * cap, r)
    ensures DoubledFrom(cap, r)
    decreases r
  {
    if r > 2 * cap {
      DoubledFromHalf(cap, r / 2);
    }
  }

  /**
   * The capacity the arena's resize loop ends with when `need` vertices must
   * fit: `cap` doubled until it holds them, and no further. The loop only
   * ends when `cap > 0` or nothing needs to grow.
   */
  function GrownCapacity(cap: int, need: int): (r: int)
    requires cap > 0 || need <= cap
    ensures r >= cap && r >= need
    ensures cap > 0 ==> DoubledFrom(cap, r)
    ensures r == cap || r / 2 < need
    decreases if need <= cap then 0 else need - cap
  {
    if need <= cap then cap
    else
      var r := GrownCapacity(cap * 2, need);
      DoubledFromHalf(cap, r);
      r
  }

  /** `index_of`: the first position among `list[..count]` holding `value`, or -1. */
  method IndexOf(list: array<int>, count: int, value: int) returns (i: int)
    requires 0 <= count <= list.Length
    ensures i == FirstIndex(list[..count], value)
    ensures i == -1 <==> value !in list[..count]
    ensures i != -1 ==> 0 <= i < count && list[i] == value
  {
    i := 0;
    while i < count
      invariant 0 <= i <= count
      invariant value !in list[..i]
    {
      if list[i] == value {
        assert list[..count][..i] == list[..i];
        FirstIndexUnique(list[..count], value, i);
        return;
      }
      assert list[..i + 1] == list[..i] + [list[i]];
      i := i + 1;
    }
    assert list[..count] == list[..i];
    i := -1;
  }

  /**
   * `intersect_scene`: the entity with the strictly smallest distance along
   * the pick ray, the lowest id among equals, or -1 when no distance is below
   * `FLT_MAX`. `dist(i)` stands for `intersect_entity(i, ...)`.
   */
  method IntersectScene(count: int, dist: int -> real) returns (closest: int)
    ensures closest == -1 || 0 <= closest < count
    ensures closest == -1 <==> forall i :: 0 <= i < count ==> dist(i) >= FLT_MAX
    ensures closest != -1 ==> dist(closest) < FLT_MAX
    ensures closest != -1 ==> forall i :: 0 <= i < count ==> dist(closest) <= dist(i)
    ensures closest != -1 ==> forall i :: 0 <= i < closest ==> dist(closest) < dist(i)
  {
    closest := -1;
    var closestDistance := FLT_MAX;
    var i := 0;
    while i < count
      invariant 0 <= i <= (if count < 0 then 0 else count)
      invariant closest == -1 || 0 <= closest < i
      invariant closest == -1 ==> closestDistance == FLT_MAX
      invariant closest != -1 ==> closestDistance == dist(closest) && closestDistance < FLT_MAX
      invariant forall j :: 0 <= j < i ==> closestDistance <= dist(j)
      invariant forall j :: 0 <= j < closest ==> closestDistance < dist(j)
    {
      var distance := dist(i);
      if distance < closestDistance {
        closest := i;
        closestDistance := distance;
      }
      i := i + 1;
    }
  }

  /** One resize step of one stream: a fresh array of twice the size holding the old slots. */
  method Doubled<T(0)>(a: array<T>, count: int) returns (b: array<T>)
    requires 0 <= count <= a.Length
    ensures fresh(b) && b.Length == 2 * a.Length
    ensures b[..count] == a[..count]
  {
    b := new T[2 * a.Length];
    forall i | 0 <= i < a.Length {
      b[i] := a[i];
    }
    assert b[..count] == a[..count];
  }

  /**
   * The resize loop of `add_model`: double the capacity until `need`
   * vertices fit, copying each stream into arrays of the new size. When
   * nothing needs to grow the arrays are kept.
   */
  method GrowArena(pos: array<Vec3>, norm: array<Vec3>, uv: array<Vec2>, count: int, cap: int, need: int)
    returns (newPos: array<Vec3>, newNorm: array<Vec3>, newUv: array<Vec2>, newCap: int)
    requires pos.Length == cap && norm.Length == cap && uv.Length == cap && pos != norm
    requires 0 <= count <= cap
    requires cap > 0 || need <= cap
    ensures newCap == GrownCapacity(cap, need)
    ensures newPos.Length == newCap && newNorm.Length == newCap && newUv.Length == newCap
    ensures newPos[..count] == pos[..count] && newNorm[..count] == norm[..count]
    ensures newUv[..count] == uv[..count]
    ensures (newPos == pos && newNorm == norm && newUv == uv)
         || (fresh(newPos) && fresh(newNorm) && fresh(newUv))
    ensures newPos != newNorm
  {
    newCap := cap;
    newPos, newNorm, newUv := pos, norm, uv;
    while need > newCap
      invariant newCap > 0 || need <= newCap
      invariant count <= newCap
      invariant GrownCapacity(newCap, need) == GrownCapacity(cap, need)
      invariant newPos.Length == newCap && newNorm.Length == newCap && newUv.Length == newCap
      invariant newPos[..count] == pos[..count] && newNorm[..count] == norm[..count]
      invariant newUv[..count] == uv[..count]
      invariant (newPos == pos && newNorm == norm && newUv == uv)
             || (fresh(newPos) && fresh(newNorm) && fresh(newUv))
      invariant newPos != newNorm
      decreases need - newCap
    {
      var doubled := newCap * 2;
      var p := Doubled(newPos, count);
      var q := Doubled(newNorm, count);
      var r := Doubled(newUv, count);
      newPos, newNorm, newUv, newCap := p, q, r, doubled;
    }
  }

  /** One `memcpy` of `add_model`: `src[..n]` lands at `arr[offset..]`, earlier slots kept. */
  method CopyInto<T>(arr: array<T>, offset: int, src: seq<T>, n: int)
    requires 0 <= offset && 0 <= n <= |src| && offset + n <= arr.Length
    modifies arr
    ensures arr[..offset + n] == old(arr[..offset]) + src[..n]
  {
    forall i | 0 <= i < n {
      arr[offset + i] := src[i];
    }
    assert arr[..offset + n] == old(arr[..offset]) + src[..n];
  }

  /** The vertex table: three parallel attribute streams under one count and capacity. */
  class VertexTable {
    var pos: array<Vec3>
    var normal: array<Vec3>
    var uv: array<Vec2>
    var count: int
    var cap: int

    ghost predicate Valid()
      reads this
    {
      && 0 <= count <= cap
      && pos.Length == cap && normal.Length == cap && uv.Length == cap
      && pos != normal
    }

    ghost function Positions(): seq<Vec3>
      reads this, pos
      requires Valid()
    {
      pos[..count]
    }

    ghost function Normals(): seq<Vec3>
      reads this, normal
      requires Valid()
    {
      normal[..count]
    }

    ghost function Uvs(): seq<Vec2>
      reads this, uv
      requires Valid()
    {
      uv[..count]
    }

    constructor (initialCap: nat)
      ensures Valid() && count == 0 && cap == initialCap
      ensures fresh(pos) && fresh(normal) && fresh(uv)
    {
      pos := new Vec3[initialCap];
      normal := new Vec3[initialCap];
      uv := new Vec2[initialCap];
      count, cap := 0, initialCap;
    }

    /**
     * The arena half of `add_model`: grow until `n` more vertices fit, then
     * copy the new ones in after the live ones. Returns where they start.
     */
    method Append(newPos: seq<Vec3>, newNormal: seq<Vec3>, newUv: seq<Vec2>, n: int)
      returns (offset: int)
      requires Valid()
      requires 0 <= n <= |newPos| && n <= |newNormal| && n <= |newUv|
      requires cap > 0 || n == 0
      modifies this, pos, normal, uv
      ensures Valid()
      ensures offset == old(count) && count == old(count) + n
      ensures cap == GrownCapacity(old(cap), old(count) + n)
      ensures Positions() == old(Positions()) + newPos[..n]
      ensures Normals() == old(Normals()) + newNormal[..n]
      ensures Uvs() == old(Uvs()) + newUv[..n]
      ensures (pos == old(pos) && normal == old(normal) && uv == old(uv))
           || (fresh(pos) && fresh(normal) && fresh(uv))
    {
      offset := count;
      Reserve(count + n);
      Fill(newPos, newNormal, newUv, n);
    }

    /** The resize loop of `add_model` applied to the table: room for `need` vertices. */
    method Reserve(need: int)
      requires Valid() && count <= need && (cap > 0 || need <= cap)
      modifies this
      ensures Valid() && count == old(count) && cap == GrownCapacity(old(cap), need)
      ensures Positions() == old(Positions()) && Normals() == old(Normals()) && Uvs() == old(Uvs())
      ensures (pos == old(pos) && normal == old(normal) && uv == old(uv))
           || (fresh(pos) && fresh(normal) && fresh(uv))
    {
      var p, q, r, newCap := GrowArena(pos, normal, uv, count, cap, need);
      pos, normal, uv, cap := p, q, r, newCap;
    }

    /** The three `memcpy` calls of `add_model`: `n` new vertices after the live ones. */
    method Fill(newPos: seq<Vec3>, newNormal: seq<Vec3>, newUv: seq<Vec2>, n: int)
      requires Valid()
      requires 0 <= n <= |newPos| && n <= |newNormal| && n <= |newUv| && count + n <= cap
      modifies this, pos, normal, uv
      ensures Valid() && pos == old(pos) && normal == old(normal) && uv == old(uv)
      ensures cap == old(cap) && count == old(count) + n
      ensures Positions() == old(Positions()) + newPos[..n]
      ensures Normals() == old(Normals()) + newNormal[..n]
      ensures Uvs() == old(Uvs()) + newUv[..n]
    {
      CopyInto(pos, count, newPos, n);
      CopyInto(normal, count, newNormal, n);
      CopyInto(uv, count, newUv, n);
      count := count + n;
    }
  }

  /** The model table: one record (offset, size, texture, emission) per model. */
  class ModelTable {
    const sizes: array<int>
    const offsets: array<int>
    const textures: array<int>
    const emissions: array<Vec3>
    var count: int

    ghost predicate Valid()
      reads this
    {
      && sizes.Length == MAX_MODEL_COUNT && offsets.Length == MAX_MODEL_COUNT
      && textures.Length == MAX_MODEL_COUNT && emissions.Length == MAX_MODEL_COUNT
      && sizes != offsets && sizes != textures && offsets != textures
      && 0 <= count <= MAX_MODEL_COUNT
    }

    ghost function Offsets(): seq<int>
      reads this, offsets
      requires Valid()
    {
      offsets[..count]
    }

    ghost function Sizes(): seq<int>
      reads this, sizes
      requires Valid()
    {
      sizes[..count]
    }

    ghost function Textures(): seq<int>
      reads this, textures
      requires Valid()
    {
      textures[..count]
    }

    ghost function Emissions(): seq<Vec3>
      reads this, emissions
      requires Valid()
    {
      emissions[..count]
    }

    constructor ()
      ensures Valid() && count == 0
      ensures fresh(sizes) && fresh(offsets) && fresh(textures) && fresh(emissions)
    {
      sizes := new int[MAX_MODEL_COUNT];
      offsets := new int[MAX_MODEL_COUNT];
      textures := new int[MAX_MODEL_COUNT];
      emissions := new Vec3[MAX_MODEL_COUNT];
      count := 0;
    }

    /**
     * The record half of `add_model`: a new model over `n` vertices from
     * `offset`, untextured (-1) and not emissive. The capacity is not checked
     * by the source.
     */
    method Add(offset: int, n: int) returns (id: int)
      requires Valid() && count < MAX_MODEL_COUNT
      modifies this, sizes, offsets, textures, emissions
      ensures Valid()
      ensures id == old(count) && count == old(count) + 1
      ensures Offsets() == old(Offsets()) + [offset]
      ensures Sizes() == old(Sizes()) + [n]
      ensures Textures() == old(Textures()) + [-1]
      ensures Emissions() == old(Emissions()) + [Zero3]
    {
      id := count;
      count := count + 1;
      offsets[id] := offset;
      sizes[id] := n;
      textures[id] := -1;
      emissions[id] := Zero3;
      assert offsets[..count] == old(offsets[..id]) + [offset];
      assert sizes[..count] == old(sizes[..id]) + [n];
      assert textures[..count] == old(textures[..id]) + [-1];
      assert emissions[..count] == old(emissions[..id]) + [Zero3];
    }
  }

  /** The entity table: each entity's model id and transform. */
  class EntityTable {
    const transforms: array<Transform>
    const models: array<int>
    var count: int

    ghost predicate Valid()
      reads this
    {
      transforms.Length == MAX_ENTITY_COUNT && models.Length == MAX_ENTITY_COUNT
      && 0 <= count <= MAX_ENTITY_COUNT
    }

    ghost function Models(): seq<int>
      reads this, models
      requires Valid()
    {
      models[..count]
    }

    ghost function Transforms(): seq<Transform>
      reads this, transforms
      requires Valid()
    {
      transforms[..count]
    }

    constructor ()
      ensures Valid() && count == 0
      ensures fresh(transforms) && fresh(models)
    {
      transforms := new Transform[MAX_ENTITY_COUNT](_ => Identity());
      models := new int[MAX_ENTITY_COUNT];
      count := 0;
    }

    /**
     * `add_entity`: a new entity at the end, with no model (-1) and the
     * identity transform. The capacity is not checked by the source.
     */
    method Add() returns (id: int)
      requires Valid() && count < MAX_ENTITY_COUNT
      modifies this, transforms, models
      ensures Valid()
      ensures id == old(count) && count == old(count) + 1
      ensures Models() == old(Models()) + [-1]
      ensures Transforms() == old(Transforms()) + [Identity()]
    {
      id := count;
      count := count + 1;
      models[id] := -1;
      transforms[id] := Identity();
      assert models[..count] == old(models[..id]) + [-1];
      assert transforms[..count] == old(transforms[..id]) + [Identity()];
    }

    /** The copy step of `duplicate_current_entity`: entity `dst` takes the model and transform of `src`. */
    method CopyEntity(src: int, dst: int)
      requires Valid() && 0 <= src < count && 0 <= dst < count
      modifies transforms, models
      ensures Models() == old(Models())[dst := old(models[src])]
      ensures Transforms() == old(Transforms())[dst := old(transforms[src])]
    {
      var model := models[src];
      var t := transforms[src];
      models[dst] := model;
      transforms[dst] := t;
    }

    /** The entity part of `remove_current_entity`: the last entity moves into slot `e`. */
    method RemoveSlot(e: int)
      requires Valid() && 0 <= e < count
      modifies this, transforms, models
      ensures Valid()
      ensures count == old(count) - 1
      ensures Models() == RemoveAt(old(Models()), e)
      ensures Transforms() == RemoveAt(old(Transforms()), e)
    {
      ArraySwapLast(models, count, e);
      ArraySwapLast(transforms, count, e);
      count := count - 1;
      assert models[..count] == models[..count + 1][..count];
      assert transforms[..count] == transforms[..count + 1][..count];
    }
  }

  /** A role-index list (`e_model_entity_list` or `e_light_entity_list`) with its count. */
  class RoleTable {
    const list: array<int>
    var count: int

    ghost predicate Valid()
      reads this
    {
      list.Length == MAX_ENTITY_COUNT && 0 <= count <= MAX_ENTITY_COUNT
    }

    ghost function Roles(): seq<int>
      reads this, list
      requires Valid()
    {
      list[..count]
    }

    constructor ()
      ensures Valid() && count == 0
      ensures fresh(list)
    {
      list := new int[MAX_ENTITY_COUNT];
      count := 0;
    }

    /** `index_of(list, count, value)` on this list. */
    method Find(value: int) returns (i: int)
      requires Valid()
      ensures i == FirstIndex(Roles(), value)
    {
      i := IndexOf(list, count, value);
    }

    /** Reserve the next slot (`e_*_count++`); the caller fills it. */
    method Reserve() returns (id: int)
      requires Valid() && count < MAX_ENTITY_COUNT
      modifies this
      ensures Valid() && id == old(count) && count == old(count) + 1
      ensures Roles()[..id] == old(Roles())
    {
      id := count;
      count := count + 1;
      assert list[..count][..id] == list[..id];
    }

    /** Remove the first `e`, if any, by swap-with-last. */
    method Remove(e: int)
      requires Valid()
      modifies this, list
      ensures Valid()
      ensures count == if e in old(Roles()) then old(count) - 1 else old(count)
      ensures Roles() == RemoveFirst(old(Roles()), e)
    {
      var i := IndexOf(list, count, e);
      if i != -1 {
        ArraySwapLast(list, count, i);
        count := count - 1;
        assert list[..count] == list[..count + 1][..count];
      }
    }

    /** The first `a`, if any, becomes `b`. */
    method Rewrite(a: int, b: int)
      requires Valid()
      modifies list
      ensures Roles() == RewriteFirst(old(Roles()), a, b)
    {
      var i := IndexOf(list, count, a);
      if i != -1 {
        list[i] := b;
        assert list[..count] == old(list[..count])[i := b];
      }
    }

    /**
     * What `remove_current_entity` does to this list when entity `e` is
     * removed and `last` is the old last entity id: drop `e`, then rename
     * `last` to `e`.
     */
    method RemoveEntity(e: int, last: int)
      requires Valid()
      modifies this, list
      ensures Valid()
      ensures Roles() == AfterRemoval(old(Roles()), e, last + 1)
    {
      ghost var before := Roles();
      Remove(e);
      Rewrite(last, e);
      assert Roles() == AfterRemoval(before, e, last + 1);
    }
  }

  /**
   * The geometry side of the editor state: the vertex and model tables of
   * the render state, and the editor's `model_file_list` and
   * `model_file_count`.
   */
  class ModelState {
    const vertices: VertexTable
    const models: ModelTable
    const modelFiles: array<string>
    var modelFileCount: int

    ghost predicate Valid()
      reads vertices, models
    {
      && vertices.Valid() && models.Valid()
      && vertices.pos != models.emissions && vertices.normal != models.emissions
      && modelFiles.Length == MAX_MODEL_COUNT
    }

    /** Empty tables and an empty arena of capacity `initialCap`. */
    constructor (initialCap: nat)
      ensures Valid()
      ensures vertices.count == 0 && vertices.cap == initialCap
      ensures models.count == 0 && modelFileCount == 0
    {
      vertices := new VertexTable(initialCap);
      models := new ModelTable();
      modelFiles := new string[MAX_MODEL_COUNT];
      modelFileCount := 0;
    }

    /**
     * `add_model(pos_list, norm_list, uv_list, vertex_count)`: append `n`
     * vertices to the arena, doubling its capacity as often as needed, and
     * record a model over the new range with no texture and no emission.
     * The doubling loop never ends when the capacity is 0 and something must
     * be added; the model table's capacity is not checked by the source.
     */
    method AddModel(pos: seq<Vec3>, norm: seq<Vec3>, uv: seq<Vec2>, n: int) returns (id: int)
      requires Valid()
      requires 0 <= n <= |pos| && n <= |norm| && n <= |uv|
      requires vertices.cap > 0 || n == 0
      requires models.count < MAX_MODEL_COUNT
      modifies vertices, vertices.pos, vertices.normal, vertices.uv
      modifies models, models.sizes, models.offsets, models.textures, models.emissions
      ensures Valid()
      ensures vertices.count == old(vertices.count) + n
      ensures vertices.cap == GrownCapacity(old(vertices.cap), old(vertices.count) + n)
      ensures vertices.Positions() == old(vertices.Positions()) + pos[..n]
      ensures vertices.Normals() == old(vertices.Normals()) + norm[..n]
      ensures vertices.Uvs() == old(vertices.Uvs()) + uv[..n]
      ensures id == old(models.count) && models.count == old(models.count) + 1
      ensures models.Offsets() == old(models.Offsets()) + [old(vertices.count)]
      ensures models.Sizes() == old(models.Sizes()) + [n]
      ensures models.Textures() == old(models.Textures()) + [-1]
      ensures models.Emissions() == old(models.Emissions()) + [Zero3]
    {
      var offset := vertices.Append(pos, norm, uv, n);
      id := models.Add(offset, n);
    }

    /**
     * `add_model(filename)`: the first model registered under `filename`, or,
     * when there is none, a new model over the mesh loaded for it. Loading
     * (`find_res` and `load_wavefront`) is input here: `pos`, `norm`, `uv`
     * and `n` are what it produced for `filename`.
     */
    method AddModelFile(filename: string, pos: seq<Vec3>, norm: seq<Vec3>, uv: seq<Vec2>, n: int)
      returns (id: int)
      requires Valid()
      requires filename !in modelFiles[..models.count] ==>
        0 <= n <= |pos| && n <= |norm| && n <= |uv| && (vertices.cap > 0 || n == 0)
        && models.count < MAX_MODEL_COUNT
      modifies this, vertices, vertices.pos, vertices.normal, vertices.uv
      modifies models, models.sizes, models.offsets, models.textures, models.emissions, modelFiles
      ensures Valid()
      ensures 0 <= id < models.count && modelFiles[id] == filename
      ensures filename !in modelFiles[..id]
      ensures filename in old(modelFiles[..models.count]) ==>
        && models.count == old(models.count) && modelFileCount == old(modelFileCount)
        && vertices.count == old(vertices.count)
        && unchanged(vertices, models, models.sizes, models.offsets, models.textures, models.emissions, modelFiles)
        && unchanged(old(vertices.pos), old(vertices.normal), old(vertices.uv))
      ensures filename !in old(modelFiles[..models.count]) ==>
        && id == old(models.count) && models.count == old(models.count) + 1
        && vertices.count == old(vertices.count) + n
        && vertices.cap == GrownCapacity(old(vertices.cap), old(vertices.count) + n)
        && vertices.Positions() == old(vertices.Positions()) + pos[..n]
        && vertices.Normals() == old(vertices.Normals()) + norm[..n]
        && vertices.Uvs() == old(vertices.Uvs()) + uv[..n]
        && models.Offsets() == old(models.Offsets()) + [old(vertices.count)]
        && models.Sizes() == old(models.Sizes()) + [n]
        && models.Textures() == old(models.Textures()) + [-1]
        && models.Emissions() == old(models.Emissions()) + [Zero3]
        && modelFiles[..] == old(modelFiles[..])[id := filename]
        && modelFileCount == old(modelFileCount) + 1
    {
      var i := 0;
      while i < models.count
        invariant 0 <= i <= models.count
        invariant filename !in modelFiles[..i]
      {
        if filename == modelFiles[i] {
          assert modelFiles[..models.count][i] == filename;
          return i;
        }
        assert modelFiles[..i + 1] == modelFiles[..i] + [modelFiles[i]];
        i := i + 1;
      }
      assert modelFiles[..models.count] == modelFiles[..i];
      id := AddModel(pos, norm, uv, n);
      modelFiles[id] := filename;
      modelFileCount := modelFileCount + 1;
      assert modelFiles[..id] == old(modelFiles[..models.count]);
    }
  }

  /**
   * The entity side of the editor state: the entity table and the two
   * role-index lists of the render state, its light model and highlight,
   * and the editor's `current_entity`.
   */
  class EntityState {
    const entities: EntityTable
    const modelRoles: RoleTable
    const lightRoles: RoleTable
    var lightModel: int
    var hiEntity: int
    var currentEntity: int

    /** Every table valid and no two of them sharing storage. */
    ghost predicate Valid()
      reads entities, modelRoles, lightRoles
    {
      && entities.Valid() && modelRoles.Valid() && lightRoles.Valid()
      && modelRoles != lightRoles && modelRoles.list != lightRoles.list
      && entities.models != modelRoles.list && entities.models != lightRoles.list
    }

    /** Every role-list entry is a distinct live entity id. */
    ghost predicate RolesOk()
      reads entities, modelRoles, modelRoles.list, lightRoles, lightRoles.list
      requires Valid()
    {
      WellFormed(modelRoles.Roles(), entities.count) && WellFormed(lightRoles.Roles(), entities.count)
    }

    /**
     * Empty tables and `lightModel` as the model drawn for lights. The
     * selection and the highlight are zero-initialised globals, so entity 0
     * is selected and highlighted although no entity exists yet; adding
     * entities is what makes that selection live.
     */
    constructor (lightModel: int)
      ensures Valid() && RolesOk()
      ensures entities.count == 0 && modelRoles.count == 0 && lightRoles.count == 0
      ensures currentEntity == 0 && hiEntity == 0 && this.lightModel == lightModel
    {
      entities := new EntityTable();
      modelRoles := new RoleTable();
      lightRoles := new RoleTable();
      this.lightModel := lightModel;
      hiEntity, currentEntity := 0, 0;
    }

    /** `add_entity`, with the role lists and the selection untouched. */
    method AddEntity() returns (id: int)
      requires Valid() && entities.count < MAX_ENTITY_COUNT
      modifies entities, entities.transforms, entities.models
      ensures Valid()
      ensures id == old(entities.count) && entities.count == old(entities.count) + 1
      ensures entities.Models() == old(entities.Models()) + [-1]
      ensures entities.Transforms() == old(entities.Transforms()) + [Identity()]
      ensures old(RolesOk()) ==> RolesOk()
    {
      id := entities.Add();
    }

    /**
     * `add_model_entity`: a new entity (as `add_entity`) whose id is appended
     * once to the model role list.
     */
    method AddModelEntity() returns (e: int)
      requires Valid()
      requires entities.count < MAX_ENTITY_COUNT && modelRoles.count < MAX_ENTITY_COUNT
      modifies entities, entities.transforms, entities.models, modelRoles, modelRoles.list
      ensures Valid()
      ensures e == old(entities.count) && entities.count == old(entities.count) + 1
      ensures entities.Models() == old(entities.Models()) + [-1]
      ensures entities.Transforms() == old(entities.Transforms()) + [Identity()]
      ensures modelRoles.Roles() == old(modelRoles.Roles()) + [e]
      ensures old(RolesOk()) ==> RolesOk()
    {
      var id := modelRoles.Reserve();
      e := entities.Add();
      modelRoles.list[id] := e;
      assert modelRoles.Roles() == old(modelRoles.Roles()) + [e];
      if old(RolesOk()) {
        AppendFreshKeepsWellFormed(old(modelRoles.Roles()), old(entities.count));
      }
    }

    /**
     * `add_light_entity`: a new entity whose id is appended once to the light
     * role list and whose model is the light model.
     */
    method AddLightEntity() returns (e: int)
      requires Valid()
      requires entities.count < MAX_ENTITY_COUNT && lightRoles.count < MAX_ENTITY_COUNT
      modifies entities, entities.transforms, entities.models, lightRoles, lightRoles.list
      ensures Valid()
      ensures e == old(entities.count) && entities.count == old(entities.count) + 1
      ensures entities.Models() == old(entities.Models()) + [lightModel]
      ensures entities.Transforms() == old(entities.Transforms()) + [Identity()]
      ensures lightRoles.Roles() == old(lightRoles.Roles()) + [e]
      ensures old(RolesOk()) ==> RolesOk()
    {
      var id := lightRoles.Reserve();
      e := entities.Add();
      lightRoles.list[id] := e;
      entities.models[e] := lightModel;
      assert lightRoles.Roles() == old(lightRoles.Roles()) + [e];
      assert entities.Models() == old(entities.Models()) + [lightModel];
      if old(RolesOk()) {
        AppendFreshKeepsWellFormed(old(lightRoles.Roles()), old(entities.count));
      }
    }

    /**
     * The entity half of the editor's `init`: a model entity showing
     * `mikuModel`, then a light entity. Started from the empty tables, this
     * makes the zero-initialised selection name a live entity.
     */
    method InitEntities(mikuModel: int)
      requires Valid()
      requires entities.count == 0 && modelRoles.count == 0 && lightRoles.count == 0
      modifies entities, entities.transforms, entities.models
      modifies modelRoles, modelRoles.list, lightRoles, lightRoles.list
      ensures Valid() && RolesOk()
      ensures entities.count == 2
      ensures entities.Models() == [mikuModel, lightModel]
      ensures entities.Transforms() == [Identity(), Identity()]
      ensures modelRoles.Roles() == [0] && lightRoles.Roles() == [1]
      ensures currentEntity == old(currentEntity) && hiEntity == old(hiEntity)
    {
      var e := AddModelEntity();
      entities.models[e] := mikuModel;
      assert entities.Models() == [mikuModel];
      var l := AddLightEntity();
    }

    /**
     * `remove_current_entity`: take the selected entity `e` out of both role
     * lists (first occurrence, by swap-with-last), move the last entity into
     * slot `e`, rename the first role-list occurrence of the old last id to
     * `e`, and clear the selection and the highlight. Nothing happens without
     * a selection. The source removes from both lists, then moves the entity,
     * then renames in both lists, and clears the selection last; the tables
     * and the selection share no storage, so finishing one list before the
     * next, and clearing the selection first, reach the same state.
     */
    method RemoveCurrentEntity()
      requires Valid()
      requires -1 <= currentEntity < entities.count
      modifies this, entities, entities.transforms, entities.models
      modifies modelRoles, modelRoles.list, lightRoles, lightRoles.list
      ensures Valid()
      ensures old(currentEntity) == -1 ==>
        unchanged(this, entities, entities.transforms, entities.models)
        && unchanged(modelRoles, modelRoles.list, lightRoles, lightRoles.list)
      ensures old(currentEntity) != -1 ==>
        var e, n := old(currentEntity), old(entities.count);
        && entities.count == n - 1
        && entities.Models() == RemoveAt(old(entities.Models()), e)
        && entities.Transforms() == RemoveAt(old(entities.Transforms()), e)
        && modelRoles.Roles() == AfterRemoval(old(modelRoles.Roles()), e, n)
        && lightRoles.Roles() == AfterRemoval(old(lightRoles.Roles()), e, n)
        && currentEntity == -1 && hiEntity == -1 && lightModel == old(lightModel)
      ensures old(RolesOk()) ==> RolesOk()
    {
      if currentEntity == -1 {
        return;
      }
      var e := currentEntity;
      currentEntity := -1;
      hiEntity := -1;
      RemoveEntity(e);
    }

    /** `remove_current_entity` for a selected entity `e`, apart from clearing the selection. */
    method RemoveEntity(e: int)
      requires Valid() && 0 <= e < entities.count
      modifies entities, entities.transforms, entities.models
      modifies modelRoles, modelRoles.list, lightRoles, lightRoles.list
      ensures Valid()
      ensures entities.count == old(entities.count) - 1
      ensures entities.Models() == RemoveAt(old(entities.Models()), e)
      ensures entities.Transforms() == RemoveAt(old(entities.Transforms()), e)
      ensures modelRoles.Roles() == AfterRemoval(old(modelRoles.Roles()), e, old(entities.count))
      ensures lightRoles.Roles() == AfterRemoval(old(lightRoles.Roles()), e, old(entities.count))
      ensures old(RolesOk()) ==> RolesOk()
    {
      var lastIndex := entities.count - 1;
      ghost var models, lights := modelRoles.Roles(), lightRoles.Roles();
      ghost var ok := RolesOk();
      RemoveFromRoles(e, lastIndex);
      entities.RemoveSlot(e);
      if ok {
        RemovalKeepsWellFormed(models, e, lastIndex + 1);
        RemovalKeepsWellFormed(lights, e, lastIndex + 1);
      }
    }

    /** The role-list half of `remove_current_entity`: entity `e` of `last + 1` leaves both lists. */
    method RemoveFromRoles(e: int, last: int)
      requires Valid()
      modifies modelRoles, modelRoles.list, lightRoles, lightRoles.list
      ensures Valid()
      ensures modelRoles.Roles() == AfterRemoval(old(modelRoles.Roles()), e, last + 1)
      ensures lightRoles.Roles() == AfterRemoval(old(lightRoles.Roles()), e, last + 1)
    {
      modelRoles.RemoveEntity(e, last);
      lightRoles.RemoveEntity(e, last);
    }

    /** How many role lists hold entity `e`: how many entities duplicating it creates. */
    ghost function RoleCount(e: int): int
      reads entities, modelRoles, modelRoles.list, lightRoles, lightRoles.list
      requires Valid()
    {
      (if e in modelRoles.Roles() then 1 else 0) + (if e in lightRoles.Roles() then 1 else 0)
    }

    /**
     * The adding half of `duplicate_current_entity`: a model entity when `e`
     * is in the model role list, then a light entity when it is in the light
     * role list. Returns the last entity added, or -1 when there is none.
     */
    method AddRoleEntities(e: int) returns (newE: int)
      requires Valid()
      requires entities.count + RoleCount(e) <= MAX_ENTITY_COUNT
      requires e in modelRoles.Roles() ==> modelRoles.count < MAX_ENTITY_COUNT
      requires e in lightRoles.Roles() ==> lightRoles.count < MAX_ENTITY_COUNT
      modifies entities, entities.transforms, entities.models
      modifies modelRoles, modelRoles.list, lightRoles, lightRoles.list
      ensures Valid()
      ensures old(RoleCount(e)) == 0 ==>
        newE == -1
        && unchanged(entities, entities.transforms, entities.models)
        && unchanged(modelRoles, modelRoles.list, lightRoles, lightRoles.list)
      ensures old(RoleCount(e)) > 0 ==>
        var n := old(entities.count);
        var inModel, inLight := e in old(modelRoles.Roles()), e in old(lightRoles.Roles());
        && newE == n + old(RoleCount(e)) - 1 && entities.count == newE + 1
        && entities.Models()[..n] == old(entities.Models())
        && entities.Transforms()[..n] == old(entities.Transforms())
        && (inModel && inLight ==> entities.Models()[n] == -1 && entities.Transforms()[n] == Identity())
        && modelRoles.Roles() == old(modelRoles.Roles()) + (if inModel then [n] else [])
        && lightRoles.Roles() == old(lightRoles.Roles()) + (if inLight then [newE] else [])
      ensures old(RolesOk()) ==> RolesOk()
    {
      newE := -1;
      var i := modelRoles.Find(e);
      if i != -1 {
        newE := AddModelEntity();
      }
      i := lightRoles.Find(e);
      if i != -1 {
        newE := AddLightEntity();
      }
    }

    /**
     * `duplicate_current_entity`: for each role list holding the selected
     * entity, add an entity of that role; the last one added receives the
     * selection's model and transform and becomes selected and highlighted.
     * An entity in both lists therefore yields two new entities, the first
     * keeping no model and the identity transform. Nothing happens without a
     * selection or when the selection is in neither list.
     */
    method DuplicateCurrentEntity()
      requires Valid()
      requires -1 <= currentEntity < entities.count
      requires currentEntity != -1 ==>
        && entities.count + RoleCount(currentEntity) <= MAX_ENTITY_COUNT
        && (currentEntity in modelRoles.Roles() ==> modelRoles.count < MAX_ENTITY_COUNT)
        && (currentEntity in lightRoles.Roles() ==> lightRoles.count < MAX_ENTITY_COUNT)
      modifies this, entities, entities.transforms, entities.models
      modifies modelRoles, modelRoles.list, lightRoles, lightRoles.list
      ensures Valid()
      ensures old(currentEntity) == -1 || old(RoleCount(currentEntity)) == 0 ==>
        unchanged(this, entities, entities.transforms, entities.models)
        && unchanged(modelRoles, modelRoles.list, lightRoles, lightRoles.list)
      ensures old(currentEntity) != -1 && old(RoleCount(currentEntity)) > 0 ==>
        var e, n := old(currentEntity), old(entities.count);
        var inModel, inLight := e in old(modelRoles.Roles()), e in old(lightRoles.Roles());
        var newE := n + old(RoleCount(currentEntity)) - 1;
        && entities.count == newE + 1
        && entities.Models()[..n] == old(entities.Models())
        && entities.Transforms()[..n] == old(entities.Transforms())
        && entities.Models()[newE] == old(entities.models[e])
        && entities.Transforms()[newE] == old(entities.transforms[e])
        && (inModel && inLight ==> entities.Models()[n] == -1 && entities.Transforms()[n] == Identity())
        && modelRoles.Roles() == old(modelRoles.Roles()) + (if inModel then [n] else [])
        && lightRoles.Roles() == old(lightRoles.Roles()) + (if inLight then [newE] else [])
        && currentEntity == newE && hiEntity == newE && lightModel == old(lightModel)
      ensures old(RolesOk()) ==> RolesOk()
    {
      if currentEntity == -1 {
        return;
      }
      var newE := DuplicateEntity(currentEntity);
      if newE != -1 {
        currentEntity := newE;
        hiEntity := newE;
      }
    }

    /**
     * `duplicate_current_entity` for a selected entity `e`, apart from moving
     * the selection: returns the entity that received `e`'s model and
     * transform, or -1 when `e` is in neither role list.
     */
    method DuplicateEntity(e: int) returns (newE: int)
      requires Valid() && 0 <= e < entities.count
      requires entities.count + RoleCount(e) <= MAX_ENTITY_COUNT
      requires e in modelRoles.Roles() ==> modelRoles.count < MAX_ENTITY_COUNT
      requires e in lightRoles.Roles() ==> lightRoles.count < MAX_ENTITY_COUNT
      modifies entities, entities.transforms, entities.models
      modifies modelRoles, modelRoles.list, lightRoles, lightRoles.list
      ensures Valid()
      ensures old(RoleCount(e)) == 0 ==>
        newE == -1
        && unchanged(entities, entities.transforms, entities.models)
        && unchanged(modelRoles, modelRoles.list, lightRoles, lightRoles.list)
      ensures old(RoleCount(e)) > 0 ==>
        var n := old(entities.count);
        var inModel, inLight := e in old(modelRoles.Roles()), e in old(lightRoles.Roles());
        && newE == n + old(RoleCount(e)) - 1 && entities.count == newE + 1
        && entities.Models()[..n] == old(entities.Models())
        && entities.Transforms()[..n] == old(entities.Transforms())
        && entities.Models()[newE] == old(entities.models[e])
        && entities.Transforms()[newE] == old(entities.transforms[e])
        && (inModel && inLight ==> entities.Models()[n] == -1 && entities.Transforms()[n] == Identity())
        && modelRoles.Roles() == old(modelRoles.Roles()) + (if inModel then [n] else [])
        && lightRoles.Roles() == old(lightRoles.Roles()) + (if inLight then [newE] else [])
      ensures old(RolesOk()) ==> RolesOk()
    {
      newE := AddRoleEntities(e);
      if newE != -1 {
        assert entities.Models()[..old(entities.count)][e] == old(entities.Models())[e];
        assert entities.Transforms()[..old(entities.count)][e] == old(entities.Transforms())[e];
        entities.CopyEntity(e, newE);
      }
    }

    /**
     * `pick_entity` after the ray is built: select and highlight the entity
     * `intersect_scene` finds, or clear both when it finds none. `dist(i)`
     * is the distance along the ray to entity `i`.
     */
    method PickEntity(dist: int -> real)
      requires Valid()
      modifies this
      ensures Valid() && lightModel == old(lightModel)
      ensures currentEntity == hiEntity
      ensures currentEntity == -1 || 0 <= currentEntity < entities.count
      ensures currentEntity == -1 <==> forall i :: 0 <= i < entities.count ==> dist(i) >= FLT_MAX
      ensures currentEntity != -1 ==>
        forall i :: 0 <= i < entities.count ==> dist(currentEntity) <= dist(i)
      ensures currentEntity != -1 ==>
        forall i :: 0 <= i < currentEntity ==> dist(currentEntity) < dist(i)
    {
      var e := IntersectScene(entities.count, dist);
      if e != -1 {
        hiEntity := e;
        currentEntity := e;
      } else {
        currentEntity := -1;
        hiEntity := -1;
      }
    }
  }
}
