/**
 * The older entity and model registry of the renderer source
 * (`entity_list`, `model_list`, `model_texture_list` and their counts),
 * which the current render state's declaration no longer has. Each entity
 * is a model id and a transform; each model is a file name, the mesh loaded
 * for it (of type `M`, produced by the OBJ loader and taken as input here)
 * and a texture id, -1 for none.
 */
module LegacyRender {
  import opened Geometry

  const MAX_MODEL_COUNT: int := 32
  const MAX_ENTITY_COUNT: int := 1024

  /** A loaded model (`wavefront_t`): its mesh and the file it came from. */
  datatype Model<M> = Model(filename: string, mesh: M)

  function FileNames<M>(ms: seq<Model<M>>): (fs: seq<string>)
    ensures |fs| == |ms| && forall i :: 0 <= i < |ms| ==> fs[i] == ms[i].filename
  {
    seq(|ms|, i requires 0 <= i < |ms| => ms[i].filename)
  }

  /** `entity_t`: which model to draw, and where. */
  datatype Entity = Entity(model: int, transform: Transform)

  /**
   * The material mix `render_model` sets: 1.0 (plain material colour) for
   * an untextured model, 0.0 (texture only) otherwise.
   */
  function MaterialMix(texture: int): (mix: real)
    ensures mix == 1.0 <==> texture == -1
    ensures mix == 0.0 <==> texture != -1
  {
    if texture == -1 then 1.0 else 0.0
  }

  /** The identity transform moved to (`x`, `y`, `z`), matrix recomputed. */
  function PlacedAt(x: real, y: real, z: real): (t: Transform)
    ensures t.pos == Vec3(x, y, z) && t.rot == Zero3 && t.scale == One3
    ensures t.Current()
  {
    Identity().(pos := Vec3(x, y, z)).Update()
  }

  class Registry<M(0)> {
    const entityList: array<Entity>
    const modelList: array<Model<M>>
    const modelTextures: array<int>
    var entityCount: int
    var modelCount: int

    ghost predicate Valid()
      reads this
    {
      && entityList.Length == MAX_ENTITY_COUNT
      && modelList.Length == MAX_MODEL_COUNT
      && modelTextures.Length == MAX_MODEL_COUNT
      && 0 <= entityCount <= MAX_ENTITY_COUNT && 0 <= modelCount <= MAX_MODEL_COUNT
    }

    ghost function Entities(): seq<Entity>
      reads this, entityList
      requires Valid()
    {
      entityList[..entityCount]
    }

    /**
     * The registry part of `render_init`: room for 1024 entities and 32
     * models, none of them in use.
     */
    constructor ()
      ensures Valid() && entityCount == 0 && modelCount == 0
    {
      entityList := new Entity[MAX_ENTITY_COUNT];
      modelList := new Model<M>[MAX_MODEL_COUNT];
      modelTextures := new int[MAX_MODEL_COUNT];
      entityCount := 0;
      modelCount := 0;
    }

    /**
     * `add_entity(model)`: a new entity at the end drawing `model` with the
     * identity transform. The capacity is not checked by the source.
     */
    method AddEntity(model: int) returns (id: int)
      requires Valid() && entityCount < MAX_ENTITY_COUNT
      modifies this, entityList
      ensures Valid() && modelCount == old(modelCount)
      ensures id == old(entityCount) && entityCount == old(entityCount) + 1
      ensures Entities() == old(Entities()) + [Entity(model, Identity())]
    {
      id := entityCount;
      entityCount := entityCount + 1;
      entityList[id] := Entity(model, Identity());
      assert entityList[..entityCount] == old(entityList[..id]) + [Entity(model, Identity())];
    }

    /**
     * `add_entity(model, x, y, z)`: as `add_entity(model)`, then move the
     * new entity to (`x`, `y`, `z`) and recompute its matrix.
     */
    method AddEntityAt(model: int, x: real, y: real, z: real) returns (id: int)
      requires Valid() && entityCount < MAX_ENTITY_COUNT
      modifies this, entityList
      ensures Valid() && modelCount == old(modelCount)
      ensures id == old(entityCount) && entityCount == old(entityCount) + 1
      ensures Entities() == old(Entities()) + [Entity(model, PlacedAt(x, y, z))]
    {
      id := AddEntity(model);
      var t := entityList[id].transform;
      t := t.(pos := Vec3(x, y, z));
      entityList[id] := entityList[id].(transform := t.Update());
      assert entityList[..entityCount] == old(entityList[..entityCount]) + [Entity(model, PlacedAt(x, y, z))];
    }

    /** The file names of the registered models. */
    ghost function Files(): seq<string>
      reads this, modelList
      requires Valid()
    {
      FileNames(modelList[..modelCount])
    }

    /**
     * `add_model(filename)`: the first model registered under `filename`, or
     * else a new untextured model holding `mesh`, the mesh loaded for it.
     */
    method AddModel(filename: string, mesh: M) returns (id: int)
      requires Valid()
      requires filename !in Files() ==> modelCount < MAX_MODEL_COUNT
      modifies this, modelList, modelTextures
      ensures Valid() && entityCount == old(entityCount)
      ensures 0 <= id < modelCount && modelList[id].filename == filename
      ensures filename !in Files()[..id]
      ensures filename in old(Files()) ==>
        && modelCount == old(modelCount)
        && unchanged(modelList, modelTextures)
      ensures filename !in old(Files()) ==>
        && id == old(modelCount) && modelCount == old(modelCount) + 1
        && modelList[..] == old(modelList[..])[id := Model(filename, mesh)]
        && modelTextures[..] == old(modelTextures[..])[id := -1]
        && MaterialMix(modelTextures[id]) == 1.0
    {
      var i := 0;
      while i < modelCount
        invariant 0 <= i <= modelCount
        invariant filename !in Files()[..i]
      {
        if filename == modelList[i].filename {
          assert Files()[i] == filename;
          return i;
        }
        assert Files()[..i + 1] == Files()[..i] + [Files()[i]];
        i := i + 1;
      }
      assert Files() == Files()[..i];
      id := modelCount;
      modelList[id] := Model(filename, mesh);
      modelTextures[id] := -1;
      modelCount := modelCount + 1;
      assert Files()[..id] == old(Files());
    }
  }
}
