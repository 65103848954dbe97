/**
 * The deferred-lighting test (tests/lighting.h): its scene of named
 * entities and lights kept beside parallel fixed-capacity arrays, the
 * attenuation table lights take their falloff from, and the keyboard
 * controls that pick the view mode and edit a selected entity's or light's
 * transform.
 */
module LightingScene {
  import opened Common
  import opened Transforms
  import Input

  const MAX_ENTITIES: nat := 1024
  const MAX_LIGHTS: nat := 16

  /** Linear and quadratic attenuation factors, one row per light range. */
  const ATTENUATION_VALUE_COUNT: nat := 12
  const ATTENUATION_VALUES: seq<Vec2> := [
    Vec2(0.7, 1.8),
    Vec2(0.35, 0.44),
    Vec2(0.22, 0.20),
    Vec2(0.14, 0.07),
    Vec2(0.09, 0.032),
    Vec2(0.07, 0.017),
    Vec2(0.045, 0.0075),
    Vec2(0.027, 0.0028),
    Vec2(0.022, 0.0019),
    Vec2(0.014, 0.0007),
    Vec2(0.007, 0.0002),
    Vec2(0.0014, 0.000007)
  ]

  /** A slot of model matrices; the matrix contents are not modelled. */
  datatype MatrixUbo = MatrixUbo

  datatype Entity = Entity(transform: Transform, materialIndex: u32)

  datatype Light = Light(color: Vec4, position: Vec3, linear: real, quadratic: real, intensity: real)

  /** The state is zeroed before the scene is built, so a newly pushed slot holds zeros. */
  const ZERO_TRANSFORM: Transform := Transform(ZERO_VEC3, ZERO_VEC3, ZERO_VEC3)
  const ZERO_ENTITY: Entity := Entity(ZERO_TRANSFORM, 0)
  const ZERO_LIGHT: Light := Light(Vec4(0.0, 0.0, 0.0, 0.0), ZERO_VEC3, 0.0, 0.0, 0.0)

  class Scene {
    /** The entity map: keys and values in insertion order. */
    var entityNames: seq<string>
    var entities: seq<Entity>
    var entityMatrixUbos: seq<MatrixUbo>
    var lights: seq<Light>
    var lightAttenuationIndexes: seq<u32>
    var lightTransforms: seq<Transform>
    var lightMatrixUbos: seq<MatrixUbo>

    /** One key and one matrix slot per entity; four parallel arrays per light. */
    ghost predicate Valid()
      reads this
    {
      && |entityNames| == |entities| == |entityMatrixUbos| <= MAX_ENTITIES
      && |lights| == |lightAttenuationIndexes| == |lightTransforms| == |lightMatrixUbos| <= MAX_LIGHTS
    }

    constructor ()
      ensures Valid()
      ensures entityNames == [] && entities == [] && lights == []
    {
      entityNames, entities, entityMatrixUbos := [], [], [];
      lights, lightAttenuationIndexes, lightTransforms, lightMatrixUbos := [], [], [], [];
    }

    /** Adds an entity under `name` and returns its index. */
    method PushEntity(name: string) returns (index: nat)
      requires Valid() && |entities| < MAX_ENTITIES
      modifies this
      ensures Valid()
      ensures index == old(|entities|)
      ensures entityNames == old(entityNames) + [name]
      ensures entities == old(entities) + [ZERO_ENTITY]
      ensures entityMatrixUbos == old(entityMatrixUbos) + [MatrixUbo]
      ensures lights == old(lights) && lightAttenuationIndexes == old(lightAttenuationIndexes)
      ensures lightTransforms == old(lightTransforms) && lightMatrixUbos == old(lightMatrixUbos)
    {
      entityMatrixUbos := entityMatrixUbos + [MatrixUbo];
      index := |entities|;
      entityNames := entityNames + [name];
      entities := entities + [ZERO_ENTITY];
    }

    /**
     * Adds a light with the given attenuation row and the default
     * transform; returns the index of the light, which is also the index
     * of its transform.
     */
    method PushLight(attenuationIndex: u32) returns (index: nat)
      requires Valid() && |lights| < MAX_LIGHTS
      modifies this
      ensures Valid()
      ensures index == old(|lights|)
      ensures lightMatrixUbos == old(lightMatrixUbos) + [MatrixUbo]
      ensures lightAttenuationIndexes == old(lightAttenuationIndexes) + [attenuationIndex]
      ensures lightTransforms == old(lightTransforms) + [DefaultTransform()]
      ensures lights == old(lights) + [ZERO_LIGHT]
      ensures entityNames == old(entityNames) && entities == old(entities)
      ensures entityMatrixUbos == old(entityMatrixUbos)
    {
      lightMatrixUbos := lightMatrixUbos + [MatrixUbo];
      lightAttenuationIndexes := lightAttenuationIndexes + [attenuationIndex];
      lightTransforms := lightTransforms + [DefaultTransform()];
      index := |lights|;
      lights := lights + [ZERO_LIGHT];
    }

    /**
     * Copies attenuation row `attenuationIndex` into the light's linear and
     * quadratic factors. A row past the table fails the assertion.
     */
    method SetAttenuationValues(lightIndex: nat, attenuationIndex: u32) returns (r: Outcome)
      requires Valid() && lightIndex < |lights|
      modifies this`lights
      ensures Valid()
      ensures r.Fatal? <==> attenuationIndex as int >= ATTENUATION_VALUE_COUNT
      ensures r.Fatal? ==> r.error == AssertionFailed("AttenuationIndex < ATTENUATION_VALUE_COUNT") && lights == old(lights)
      ensures r.Done? ==>
                lights == old(lights)[lightIndex := old(lights[lightIndex]).(
                            linear := ATTENUATION_VALUES[attenuationIndex].x,
                            quadratic := ATTENUATION_VALUES[attenuationIndex].y)]
    {
      if attenuationIndex as int >= ATTENUATION_VALUE_COUNT {
        return Fatal(AssertionFailed("AttenuationIndex < ATTENUATION_VALUE_COUNT"));
      }
      var values := ATTENUATION_VALUES[attenuationIndex];
      lights := lights[lightIndex := lights[lightIndex].(linear := values.x)];
      lights := lights[lightIndex := lights[lightIndex].(quadratic := values.y)];
      return Done;
    }
  }

  // Controls.

  datatype LightMode = Composite | Albedo | Position | Normal
  datatype ControlMode = ModeEntity | ModeLight
  datatype TransformMode = Translate | Rotate | Scale
  datatype ControlState = ControlState(mode: ControlMode, transformMode: TransformMode, entityIndex: u32, lightIndex: u32)

  /** F1 .. F4 pick the view mode; the lowest held key wins; none held keeps the mode. */
  function ViewMode(f1: bool, f2: bool, f3: bool, f4: bool, current: LightMode): (m: LightMode)
    ensures f1 ==> m == Composite
    ensures !(f1 || f2 || f3 || f4) ==> m == current
    ensures m != current ==> f1 || f2 || f3 || f4
  {
    if f1 then Composite
    else if f2 then Albedo
    else if f3 then Position
    else if f4 then Normal
    else current
  }

  /** The view mode of the i-th function key. */
  function ModeOfKey(i: nat): LightMode
    requires i < 4
  {
    [Composite, Albedo, Position, Normal][i]
  }

  /** The index of the first held key, an independent description of the precedence. */
  function FirstHeld(held: seq<bool>): (r: Option<nat>)
    ensures r.Some? ==> r.value < |held| && held[r.value] && forall j :: 0 <= j < r.value ==> !held[j]
    ensures r.None? ==> forall j :: 0 <= j < |held| ==> !held[j]
  {
    if held == [] then None
    else if held[0] then Some(0)
    else
      var rest := FirstHeld(held[1..]);
      if rest.Some? then Some(rest.value + 1) else None
  }

  lemma ViewModeIsFirstHeldKey(f1: bool, f2: bool, f3: bool, f4: bool, current: LightMode)
    ensures var first := FirstHeld([f1, f2, f3, f4]);
            ViewMode(f1, f2, f3, f4, current) == if first.Some? then ModeOfKey(first.value) else current
  {
    var held := [f1, f2, f3, f4];
    var first := FirstHeld(held);
    if f1 {
      assert held[0];
      assert first == Some(0);
    } else if f2 {
      assert !held[0] && held[1];
      assert first == Some(1);
    } else if f3 {
      assert !held[0] && !held[1] && held[2];
      assert first == Some(2);
    } else if f4 {
      assert !held[0] && !held[1] && !held[2] && held[3];
      assert first == Some(3);
    } else {
      assert forall j :: 0 <= j < 4 ==> !held[j];
    }
  }

  function SelectedProperty(t: Transform, mode: TransformMode): Vec3 {
    match mode
    case Translate => t.position
    case Rotate => t.rotation
    case Scale => t.scale
  }

  function WithProperty(t: Transform, mode: TransformMode, v: Vec3): (r: Transform)
    ensures SelectedProperty(r, mode) == v
    ensures mode != Translate ==> r.position == t.position
    ensures mode != Rotate ==> r.rotation == t.rotation
    ensures mode != Scale ==> r.scale == t.scale
  {
    match mode
    case Translate => t.(position := v)
    case Rotate => t.(rotation := v)
    case Scale => t.(scale := v)
  }

  /** The per-key step: translation and scale move by 0.01, rotation by 0.1. */
  function StepFor(mode: TransformMode): real {
    match mode
    case Translate => 0.01
    case Rotate => 0.1
    case Scale => 0.01
  }

  /** Which of the six editing keys are held: L/J for X, U/O for Y, I/K for Z. */
  datatype EditKeys = EditKeys(l: bool, j: bool, o: bool, u: bool, i: bool, k: bool)

  /** The six key tests applied one after the other, each moving one axis by `amount`. */
  function Nudge(v: Vec3, keys: EditKeys, amount: real): (r: Vec3)
    ensures !keys.l && !keys.j ==> r.x == v.x
    ensures !keys.o && !keys.u ==> r.y == v.y
    ensures !keys.i && !keys.k ==> r.z == v.z
    ensures keys.l && !keys.j ==> r.x == v.x + amount
    ensures keys.j && !keys.l ==> r.x == v.x - amount
    ensures keys.u && !keys.o ==> r.y == v.y + amount
    ensures keys.o && !keys.u ==> r.y == v.y - amount
    ensures keys.i && !keys.k ==> r.z == v.z + amount
    ensures keys.k && !keys.i ==> r.z == v.z - amount
    ensures keys.l && keys.j ==> r.x == v.x
    ensures keys.o && keys.u ==> r.y == v.y
    ensures keys.i && keys.k ==> r.z == v.z
  {
    var x := if keys.l then v.x + amount else v.x;
    var x := if keys.j then x - amount else x;
    var y := if keys.o then v.y - amount else v.y;
    var y := if keys.u then y + amount else y;
    var z := if keys.i then v.z + amount else v.z;
    var z := if keys.k then z - amount else z;
    Vec3(x, y, z)
  }

  /** One frame of editing: only the property the transform mode selects moves. */
  function EditTransform(t: Transform, mode: TransformMode, keys: EditKeys, modifier: int): (r: Transform)
    ensures SelectedProperty(r, mode) == Nudge(SelectedProperty(t, mode), keys, StepFor(mode) * modifier as real)
    ensures mode != Translate ==> r.position == t.position
    ensures mode != Rotate ==> r.rotation == t.rotation
    ensures mode != Scale ==> r.scale == t.scale
  {
    WithProperty(t, mode, Nudge(SelectedProperty(t, mode), keys, StepFor(mode) * modifier as real))
  }

  /** With no editing key held the transform is left as it was. */
  lemma NoEditKeysNoEdit(t: Transform, mode: TransformMode, modifier: int)
    ensures EditTransform(t, mode, EditKeys(false, false, false, false, false, false), modifier) == t
  {
  }

  /** The state of the lighting test that the controls read and write. */
  class State {
    const scene: Scene
    var controlState: ControlState
    var lightMode: LightMode

    ghost predicate Valid()
      reads this, scene
    {
      scene.Valid()
    }

    constructor ()
      ensures Valid() && fresh(scene)
      ensures scene.entities == [] && scene.lights == []
      ensures controlState == ControlState(ModeEntity, Translate, 0, 0) && lightMode == Composite
    {
      scene := new Scene();
      controlState := ControlState(ModeEntity, Translate, 0, 0);
      lightMode := Composite;
    }

    /**
     * Sets the view mode from F1 .. F4, then moves the selected property of
     * the selected entity's or light's transform with L, J, O, U, I and K,
     * by the mode's step times the speed modifier.
     */
    method Controls(input: Input.InputState)
      requires Valid() && input.Valid()
      requires controlState.mode == ModeEntity ==> (controlState.entityIndex as int) < |scene.entities|
      requires controlState.mode == ModeLight ==> (controlState.lightIndex as int) < |scene.lightTransforms|
      modifies this, scene
      ensures Valid()
      ensures controlState == old(controlState)
      ensures lightMode == ViewMode(input.Down(Input.GLFW_KEY_F1), input.Down(Input.GLFW_KEY_F2),
                                    input.Down(Input.GLFW_KEY_F3), input.Down(Input.GLFW_KEY_F4), old(lightMode))
      ensures scene.entityNames == old(scene.entityNames) && scene.entityMatrixUbos == old(scene.entityMatrixUbos)
      ensures scene.lights == old(scene.lights) && scene.lightAttenuationIndexes == old(scene.lightAttenuationIndexes)
      ensures scene.lightMatrixUbos == old(scene.lightMatrixUbos)
      ensures controlState.mode == ModeEntity ==>
                && scene.lightTransforms == old(scene.lightTransforms)
                && scene.entities == old(scene.entities)[controlState.entityIndex :=
                     old(scene.entities[controlState.entityIndex]).(transform :=
                       EditTransform(old(scene.entities[controlState.entityIndex].transform),
                                     controlState.transformMode, HeldEditKeys(input), HeldModifier(input)))]
      ensures controlState.mode == ModeLight ==>
                && scene.entities == old(scene.entities)
                && scene.lightTransforms == old(scene.lightTransforms)[controlState.lightIndex :=
                     EditTransform(old(scene.lightTransforms[controlState.lightIndex]),
                                   controlState.transformMode, HeldEditKeys(input), HeldModifier(input))]
    {
      lightMode := ViewMode(input.keyDown[Input.GLFW_KEY_F1], input.keyDown[Input.GLFW_KEY_F2],
                            input.keyDown[Input.GLFW_KEY_F3], input.keyDown[Input.GLFW_KEY_F4], lightMode);
      var keys := HeldEditKeys(input);
      var modifier := HeldModifier(input);
      var mode := controlState.transformMode;
      if controlState.mode == ModeEntity {
        var index := controlState.entityIndex;
        var entity := scene.entities[index];
        scene.entities := scene.entities[index := entity.(transform := EditTransform(entity.transform, mode, keys, modifier))];
      } else {
        var index := controlState.lightIndex;
        scene.lightTransforms := scene.lightTransforms[index := EditTransform(scene.lightTransforms[index], mode, keys, modifier)];
      }
    }
  }

  function HeldEditKeys(input: Input.InputState): EditKeys
    reads input, input.keyDown
    requires input.Valid()
  {
    EditKeys(input.Down(Input.GLFW_KEY_L), input.Down(Input.GLFW_KEY_J), input.Down(Input.GLFW_KEY_O),
             input.Down(Input.GLFW_KEY_U), input.Down(Input.GLFW_KEY_I), input.Down(Input.GLFW_KEY_K))
  }

  function HeldModifier(input: Input.InputState): int
    reads input, input.keyDown
    requires input.Valid()
  {
    Input.SpeedModifier(input.Down(Input.GLFW_KEY_LEFT_SHIFT), input.Down(Input.GLFW_KEY_LEFT_CONTROL))
  }
}
