/**
 * The scene of tests/shadows.h: entities, lights and materials, each kept
 * beside parallel fixed-capacity arrays of their transforms and uniform
 * buffer contents. An entity, light or material refers to its entries in
 * the parallel arrays by pointer; the model records the index the pointer
 * designates.
 */
module ShadowScene {
  import opened Common
  import opened Transforms

  const MAX_ENTITIES: nat := 1024
  const MAX_LIGHTS: nat := 16
  const MAX_MATERIALS: nat := 16

  const LIGHT_MODE_DIRECTIONAL: int := 0
  const LIGHT_MODE_POINT: int := 1

  /** A slot of model matrices; the matrix contents are not modelled. */
  datatype ModelUbo = ModelUbo

  datatype Entity = Entity(name: Option<string>, transform: nat)

  datatype Light = Light(transform: nat, modelUbo: nat, ubo: nat, attenuationIndex: u32)

  datatype Material = Material(name: Option<string>, ubo: nat)

  datatype LightUbo = LightUbo(
    color: Vec4, pos: Vec3, mode: int, dir: Vec3, farClip: real,
    depthBias: int, normalBias: int, linear: real, quadratic: real, ambient: real)

  datatype MaterialUbo = MaterialUbo(shineExponent: u32)

  /** What a newly pushed light's uniform buffer holds: a white point light. */
  const NEW_LIGHT_UBO: LightUbo :=
    LightUbo(Vec4(1.0, 1.0, 1.0, 1.0), ZERO_VEC3, LIGHT_MODE_POINT, ZERO_VEC3, 0.0, 0, 16, 0.0, 0.0, 0.3)

  class Scene {
    var entities: seq<Entity>
    var entityTransforms: seq<Transform>
    var entityModelUbos: seq<ModelUbo>
    var lights: seq<Light>
    var lightTransforms: seq<Transform>
    var lightModelUbos: seq<ModelUbo>
    var lightUbos: seq<LightUbo>
    var materials: seq<Material>
    var materialUbos: seq<MaterialUbo>

    /**
     * The parallel arrays have one entry per entity, light or material, no
     * array exceeds its capacity, and the i-th element refers to the i-th
     * entries.
     */
    ghost predicate Valid()
      reads this
    {
      && |entities| == |entityTransforms| == |entityModelUbos| <= MAX_ENTITIES
      && |lights| == |lightTransforms| == |lightModelUbos| == |lightUbos| <= MAX_LIGHTS
      && |materials| == |materialUbos| <= MAX_MATERIALS
      && (forall i :: 0 <= i < |entities| ==> entities[i].transform == i)
      && (forall i :: 0 <= i < |lights| ==> lights[i].transform == i && lights[i].modelUbo == i && lights[i].ubo == i)
      && (forall i :: 0 <= i < |materials| ==> materials[i].ubo == i)
    }

    /** The scene is zero-allocated: every array is empty. */
    constructor ()
      ensures Valid()
      ensures entities == [] && lights == [] && materials == []
    {
      entities, entityTransforms, entityModelUbos := [], [], [];
      lights, lightTransforms, lightModelUbos, lightUbos := [], [], [], [];
      materials, materialUbos := [], [];
    }

    /**
     * Adds an entity at the default transform and returns its index. The
     * name argument is not stored. A full entity array is fatal.
     */
    method PushEntity(name: Option<string>) returns (r: Result<nat>)
      requires Valid()
      modifies this
      ensures Valid()
      ensures r.Failure? <==> old(|entities|) == MAX_ENTITIES
      ensures r.Failure? ==> r.error == CapacityExceeded("entities", MAX_ENTITIES) && unchanged(this)
      ensures r.Success? ==>
                && r.value == old(|entities|)
                && entities == old(entities) + [Entity(None, r.value)]
                && entityTransforms == old(entityTransforms) + [DefaultTransform()]
                && entityModelUbos == old(entityModelUbos) + [ModelUbo]
                && lights == old(lights) && lightTransforms == old(lightTransforms)
                && lightModelUbos == old(lightModelUbos) && lightUbos == old(lightUbos)
                && materials == old(materials) && materialUbos == old(materialUbos)
    {
      if |entities| == MAX_ENTITIES {
        return Failure(CapacityExceeded("entities", MAX_ENTITIES));
      }
      entityModelUbos := entityModelUbos + [ModelUbo];
      var index := |entities|;
      entities := entities + [Entity(None, |entityTransforms|)];
      entityTransforms := entityTransforms + [DefaultTransform()];
      return Success(index);
    }

    /**
     * Adds a white point light at the default transform with attenuation
     * row 3 and returns its index. A full light array is fatal.
     */
    method PushLight() returns (r: Result<nat>)
      requires Valid()
      modifies this
      ensures Valid()
      ensures r.Failure? <==> old(|lights|) == MAX_LIGHTS
      ensures r.Failure? ==> r.error == CapacityExceeded("lights", MAX_LIGHTS) && unchanged(this)
      ensures r.Success? ==>
                && r.value == old(|lights|)
                && lights == old(lights) + [Light(r.value, r.value, r.value, 3)]
                && lightTransforms == old(lightTransforms) + [DefaultTransform()]
                && lightModelUbos == old(lightModelUbos) + [ModelUbo]
                && lightUbos == old(lightUbos) + [NEW_LIGHT_UBO]
                && entities == old(entities) && entityTransforms == old(entityTransforms)
                && entityModelUbos == old(entityModelUbos)
                && materials == old(materials) && materialUbos == old(materialUbos)
    {
      if |lights| == MAX_LIGHTS {
        return Failure(CapacityExceeded("lights", MAX_LIGHTS));
      }
      var index := |lights|;
      lights := lights + [Light(0, 0, 0, 0)];
      lights := lights[index := lights[index].(transform := |lightTransforms|)];
      lightTransforms := lightTransforms + [DefaultTransform()];
      lights := lights[index := lights[index].(modelUbo := |lightModelUbos|)];
      lightModelUbos := lightModelUbos + [ModelUbo];
      lights := lights[index := lights[index].(ubo := |lightUbos|)];
      var ubo := LightUbo(Vec4(0.0, 0.0, 0.0, 0.0), ZERO_VEC3, 0, ZERO_VEC3, 0.0, 0, 0, 0.0, 0.0, 0.0);
      ubo := ubo.(mode := LIGHT_MODE_POINT, color := Vec4(1.0, 1.0, 1.0, 1.0), normalBias := 16, ambient := 0.3);
      lightUbos := lightUbos + [ubo];
      lights := lights[index := lights[index].(attenuationIndex := 3)];
      return Success(index);
    }

    /**
     * Adds a named material whose uniform buffer has shine exponent 2 and
     * returns its index. A full material array is fatal; the fatal message
     * speaks of lights and their maximum, as the source's does.
     */
    method PushMaterial(name: Option<string>) returns (r: Result<nat>)
      requires Valid()
      modifies this
      ensures Valid()
      ensures r.Failure? <==> old(|materials|) == MAX_MATERIALS
      ensures r.Failure? ==> r.error == CapacityExceeded("lights", MAX_LIGHTS) && unchanged(this)
      ensures r.Success? ==>
                && r.value == old(|materials|)
                && materials == old(materials) + [Material(name, r.value)]
                && materialUbos == old(materialUbos) + [MaterialUbo(2)]
                && entities == old(entities) && entityTransforms == old(entityTransforms)
                && entityModelUbos == old(entityModelUbos)
                && lights == old(lights) && lightTransforms == old(lightTransforms)
                && lightModelUbos == old(lightModelUbos) && lightUbos == old(lightUbos)
    {
      if |materials| == MAX_MATERIALS {
        return Failure(CapacityExceeded("lights", MAX_LIGHTS));
      }
      var index := |materials|;
      materials := materials + [Material(name, |materialUbos|)];
      materialUbos := materialUbos + [MaterialUbo(0)];
      materialUbos := materialUbos[index := materialUbos[index].(shineExponent := 2)];
      return Success(index);
    }
  }
}
