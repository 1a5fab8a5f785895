/**
 * The cached drawable state of src/drawable.cpp: a DRAWABLE carries logical
 * attributes (texture slots, vertex array, transform, RGBA tint) and two
 * independent dirty flags; generateRenderModelData rebuilds only the dirty half
 * of the derived render model and leaves default values out of it.
 */
module Drawables {
  import opened Wrappers

  /** A texture as the drawable sees it: the answers of TEXTURE::GetID() and TEXTURE::IsCube(). */
  datatype Texture = Texture(id: nat, isCube: bool)

  /** MATRIX4<float>: only its 16 entries (GetArray()) and equality are used here. */
  datatype Matrix4 = Matrix4(cells: seq<real>)

  /** The default-constructed MATRIX4<float>, the identity. */
  const Identity: Matrix4 :=
    Matrix4([1.0, 0.0, 0.0, 0.0,
             0.0, 1.0, 0.0, 0.0,
             0.0, 0.0, 1.0, 0.0,
             0.0, 0.0, 0.0, 1.0])

  /** Interned binding names; the three the drawable uses are fixed and distinct. */
  type StringId = nat
  const DiffuseId: StringId := 0    // "diffuseTexture"
  const TransformId: StringId := 1  // "modelMatrix"
  const ColorId: StringId := 2      // "colorTint"

  /** The OpenGL texture target GL_TEXTURE_2D. */
  const Texture2D: nat := 0x0DE1

  /** Identity of an externally owned VERTEXARRAY. */
  type VertexArrayRef = nat
  type ListId = nat
  type Vao = nat

  datatype TextureEntry = TextureEntry(name: StringId, handle: nat, target: nat)

  /** A uniform binding, as a snapshot of the floats it points at. */
  datatype UniformEntry = UniformEntry(name: StringId, data: seq<real>)

  /** RenderModelExternal: the binding lists plus the geometry it draws. */
  datatype RenderModel = RenderModel(
    textures: seq<TextureEntry>,
    uniforms: seq<UniformEntry>,
    vertArray: Option<VertexArrayRef>,
    vao: Vao,
    elementCount: nat)

  /** What a MODEL reports: HaveListID/GetListID and HaveVertexArrayObject/GetVertexArrayObject. */
  datatype Model = Model(
    haveListId: bool,
    listId: ListId,
    haveVertexArrayObject: bool,
    vaoAvailable: bool,
    vao: Vao,
    elementCount: nat)
  {
    /** GetVertexArrayObject(vao, elementCount): whether it delivered, and the two out-values. */
    function GetVertexArrayObject(): (bool, Vao, nat) {
      (vaoAvailable, vao, elementCount)
    }
  }

  /** The whole state of one drawable, as a value. */
  datatype DrawableState = DrawableState(
    diffuseMap: Option<Texture>,
    miscMap1: Option<Texture>,
    miscMap2: Option<Texture>,
    vertArray: Option<VertexArrayRef>,
    transform: Matrix4,
    r: real, g: real, b: real, a: real,
    drawEnable: bool,
    drawLists: seq<ListId>,
    texturesChanged: bool,
    uniformsChanged: bool,
    renderModel: RenderModel)

  /** Default attributes: no textures, identity transform, white opaque tint, both flags raised. */
  const DefaultState: DrawableState :=
    DrawableState(None, None, None, None, Identity, 1.0, 1.0, 1.0, 1.0, true, [], true, true,
                  RenderModel([], [], None, 0, 0))

  predicate IsWhite(r: real, g: real, b: real, a: real) {
    r == 1.0 && g == 1.0 && b == 1.0 && a == 1.0
  }

  /** The texture list a rebuild produces: only a present, non-cube diffuse map is bound. */
  function TextureEntries(diffuse: Option<Texture>): (t: seq<TextureEntry>)
    ensures t != [] <==> diffuse.Some? && !diffuse.value.isCube
    ensures t != [] ==> t == [TextureEntry(DiffuseId, diffuse.value.id, Texture2D)]
  {
    if diffuse.Some? && !diffuse.value.isCube then
      [TextureEntry(DiffuseId, diffuse.value.id, Texture2D)]
    else
      []
  }

  /** The uniform list a rebuild produces: the transform unless it is the identity, then the tint unless it is white. */
  function UniformEntries(transform: Matrix4, r: real, g: real, b: real, a: real): (u: seq<UniformEntry>)
    ensures |u| == (if transform != Identity then 1 else 0) + (if IsWhite(r, g, b, a) then 0 else 1)
    ensures transform != Identity ==> u[0] == UniformEntry(TransformId, transform.cells)
    ensures !IsWhite(r, g, b, a) ==> u[|u| - 1] == UniformEntry(ColorId, [r, g, b, a])
  {
    (if transform != Identity then [UniformEntry(TransformId, transform.cells)] else [])
    + (if !IsWhite(r, g, b, a) then [UniformEntry(ColorId, [r, g, b, a])] else [])
  }

  /** Whether a binding list holds an entry for the given name. */
  predicate Binds(u: seq<UniformEntry>, id: StringId) {
    exists i :: 0 <= i < |u| && u[i].name == id
  }

  /** The uniform list has a transform entry iff the transform is not the identity, a tint entry iff the tint is not white, and nothing else. */
  lemma UniformBindings(transform: Matrix4, r: real, g: real, b: real, a: real)
    ensures Binds(UniformEntries(transform, r, g, b, a), TransformId) <==> transform != Identity
    ensures Binds(UniformEntries(transform, r, g, b, a), ColorId) <==> !IsWhite(r, g, b, a)
    ensures forall id :: id != TransformId && id != ColorId ==> !Binds(UniformEntries(transform, r, g, b, a), id)
  {
    var u := UniformEntries(transform, r, g, b, a);
    if transform != Identity {
      assert u[0].name == TransformId;
    }
    if !IsWhite(r, g, b, a) {
      assert u[|u| - 1].name == ColorId;
    }
  }

  /** The texture half of the render model matches the attributes. */
  predicate TexturesCurrent(s: DrawableState) {
    s.renderModel.textures == TextureEntries(s.diffuseMap)
  }

  /** The uniform half of the render model matches the attributes. */
  predicate UniformsCurrent(s: DrawableState) {
    s.renderModel.uniforms == UniformEntries(s.transform, s.r, s.g, s.b, s.a)
  }

  /**
   * The cache invariant: each half of the render model is stale only while its
   * dirty flag is raised, and the render model always draws the drawable's vertex array.
   */
  predicate Coherent(s: DrawableState) {
    && (!s.texturesChanged ==> TexturesCurrent(s))
    && (!s.uniformsChanged ==> UniformsCurrent(s))
    && s.renderModel.vertArray == s.vertArray
  }

  /** generateRenderModelData on a state value: rebuild the dirty halves, then lower both flags. */
  function Generate(s: DrawableState): (t: DrawableState)
    ensures !t.texturesChanged && !t.uniformsChanged
    ensures s.texturesChanged ==> TexturesCurrent(t)
    ensures !s.texturesChanged ==> t.renderModel.textures == s.renderModel.textures
    ensures s.uniformsChanged ==> UniformsCurrent(t)
    ensures !s.uniformsChanged ==> t.renderModel.uniforms == s.renderModel.uniforms
    ensures t.renderModel.vertArray == s.renderModel.vertArray
    ensures t.renderModel.vao == s.renderModel.vao && t.renderModel.elementCount == s.renderModel.elementCount
    ensures t == s.(texturesChanged := false, uniformsChanged := false, renderModel := t.renderModel)
  {
    var textures := if s.texturesChanged then TextureEntries(s.diffuseMap) else s.renderModel.textures;
    var uniforms := if s.uniformsChanged then UniformEntries(s.transform, s.r, s.g, s.b, s.a)
                    else s.renderModel.uniforms;
    s.(texturesChanged := false, uniformsChanged := false,
       renderModel := s.renderModel.(textures := textures, uniforms := uniforms))
  }

  /** On a coherent drawable, a rebuild leaves the whole render model current; it keeps the invariant. */
  lemma GenerateMakesCurrent(s: DrawableState)
    requires Coherent(s)
    ensures TexturesCurrent(Generate(s)) && UniformsCurrent(Generate(s))
    ensures Coherent(Generate(s))
  {
  }

  /** Two rebuilds in a row with no setter between change nothing the second time. */
  lemma GenerateIdempotent(s: DrawableState)
    ensures Generate(Generate(s)) == Generate(s)
  {
  }

  /** Every setter keeps the cache invariant (the state changes are those the Drawable methods promise). */
  lemma SettersPreserveCoherence(s: DrawableState, t: Option<Texture>, v: Option<VertexArrayRef>,
                                 m: Matrix4, nr: real, ng: real, nb: real, na: real, e: bool,
                                 model: Model)
    requires Coherent(s)
    ensures Coherent(s.(diffuseMap := t, texturesChanged := true))
    ensures Coherent(s.(miscMap1 := t, texturesChanged := true))
    ensures Coherent(s.(miscMap2 := t, texturesChanged := true))
    ensures Coherent(s.(vertArray := v, renderModel := s.renderModel.(vertArray := v)))
    ensures Coherent(s.(transform := m, uniformsChanged := true))
    ensures Coherent(s.(r := nr, g := ng, b := nb, a := na, uniformsChanged := true))
    ensures Coherent(s.(r := nr, g := ng, b := nb, uniformsChanged := true))
    ensures Coherent(s.(a := na, uniformsChanged := true))
    ensures Coherent(s.(drawEnable := e))
    ensures Coherent(SetModelState(s, model))
  {
  }

  /** A setter that changes the diffuse map is only safe because it raises the flag: without it the cache would go stale. */
  lemma DiffuseChangeNeedsFlag(s: DrawableState, t: Option<Texture>)
    requires TexturesCurrent(s)
    requires t.Some? && !t.value.isCube && s.diffuseMap.None?
    ensures !TexturesCurrent(s.(diffuseMap := t))
  {
    assert TextureEntries(s.diffuseMap) == [];
  }

  /** SetModel on a state value. */
  function SetModelState(s: DrawableState, model: Model): (t: DrawableState)
    ensures t.drawLists == s.drawLists + (if model.haveListId then [model.listId] else [])
    ensures model.haveVertexArrayObject && model.vaoAvailable ==>
              t.renderModel == s.renderModel.(vao := model.vao, elementCount := model.elementCount)
    ensures !(model.haveVertexArrayObject && model.vaoAvailable) ==> t.renderModel == s.renderModel
    ensures t == s.(drawLists := t.drawLists, renderModel := t.renderModel)
  {
    var lists := if model.haveListId then s.drawLists + [model.listId] else s.drawLists;
    var rm := if model.haveVertexArrayObject && model.vaoAvailable
              then s.renderModel.(vao := model.vao, elementCount := model.elementCount)
              else s.renderModel;
    s.(drawLists := lists, renderModel := rm)
  }

  /** An untouched drawable renders with no texture and no uniform bindings. */
  lemma DefaultRendersNothing()
    ensures Generate(DefaultState).renderModel.textures == []
    ensures Generate(DefaultState).renderModel.uniforms == []
  {
  }

  /** SetAlpha(0.5) on an untouched drawable yields exactly one binding, the tint (1, 1, 1, 0.5). */
  lemma HalfAlphaBindsTintOnly()
    ensures Generate(DefaultState.(a := 0.5, uniformsChanged := true)).renderModel.uniforms
            == [UniformEntry(ColorId, [1.0, 1.0, 1.0, 0.5])]
  {
  }

  /** One DRAWABLE. */
  class Drawable {
    var diffuseMap: Option<Texture>
    var miscMap1: Option<Texture>
    var miscMap2: Option<Texture>
    var vertArray: Option<VertexArrayRef>
    var transform: Matrix4
    var r: real
    var g: real
    var b: real
    var a: real
    var drawEnable: bool
    var drawLists: seq<ListId>
    var texturesChanged: bool
    var uniformsChanged: bool
    var renderModel: RenderModel

    /** The drawable's state as a value. */
    function Snapshot(): DrawableState
      reads this
    {
      DrawableState(diffuseMap, miscMap1, miscMap2, vertArray, transform, r, g, b, a,
                    drawEnable, drawLists, texturesChanged, uniformsChanged, renderModel)
    }

    constructor ()
      ensures Snapshot() == DefaultState
      ensures Coherent(Snapshot())
    {
      diffuseMap, miscMap1, miscMap2, vertArray := None, None, None, None;
      transform := Identity;
      r, g, b, a := 1.0, 1.0, 1.0, 1.0;
      drawEnable, drawLists := true, [];
      texturesChanged, uniformsChanged := true, true;
      renderModel := RenderModel([], [], None, 0, 0);
    }

    method SetDiffuseMap(value: Option<Texture>)
      modifies this
      ensures Snapshot() == old(Snapshot()).(diffuseMap := value, texturesChanged := true)
    {
      diffuseMap := value;
      texturesChanged := true;
    }

    method SetMiscMap1(value: Option<Texture>)
      modifies this
      ensures Snapshot() == old(Snapshot()).(miscMap1 := value, texturesChanged := true)
    {
      miscMap1 := value;
      texturesChanged := true;
    }

    method SetMiscMap2(value: Option<Texture>)
      modifies this
      ensures Snapshot() == old(Snapshot()).(miscMap2 := value, texturesChanged := true)
    {
      miscMap2 := value;
      texturesChanged := true;
    }

    /** Stored at once in the drawable and in its render model; no flag is involved. */
    method SetVertArray(value: Option<VertexArrayRef>)
      modifies this
      ensures Snapshot() == old(Snapshot()).(vertArray := value, renderModel := old(renderModel).(vertArray := value))
    {
      vertArray := value;
      renderModel := renderModel.(vertArray := vertArray);
    }

    method SetVertexArrayObject(vao: Vao, elementCount: nat)
      modifies this
      ensures Snapshot() == old(Snapshot()).(renderModel := old(renderModel).(vao := vao, elementCount := elementCount))
    {
      renderModel := renderModel.(vao := vao, elementCount := elementCount);
    }

    method SetTransform(value: Matrix4)
      modifies this
      ensures Snapshot() == old(Snapshot()).(transform := value, uniformsChanged := true)
    {
      transform := value;
      uniformsChanged := true;
    }

    method SetColor(nr: real, ng: real, nb: real, na: real)
      modifies this
      ensures Snapshot() == old(Snapshot()).(r := nr, g := ng, b := nb, a := na, uniformsChanged := true)
    {
      r := nr;
      g := ng;
      b := nb;
      a := na;
      uniformsChanged := true;
    }

    /** The three-argument SetColor: alpha is kept. */
    method SetColorRgb(nr: real, ng: real, nb: real)
      modifies this
      ensures Snapshot() == old(Snapshot()).(r := nr, g := ng, b := nb, uniformsChanged := true)
    {
      r := nr;
      g := ng;
      b := nb;
      uniformsChanged := true;
    }

    method SetAlpha(na: real)
      modifies this
      ensures Snapshot() == old(Snapshot()).(a := na, uniformsChanged := true)
    {
      a := na;
      uniformsChanged := true;
    }

    method SetDrawEnable(value: bool)
      modifies this
      ensures Snapshot() == old(Snapshot()).(drawEnable := value)
    {
      drawEnable := value;
    }

    /** Registers a display list for submission. */
    method AddDrawList(id: ListId)
      modifies this
      ensures Snapshot() == old(Snapshot()).(drawLists := old(drawLists) + [id])
    {
      drawLists := drawLists + [id];
    }

    /** Runs an arbitrary per-drawable functor, seen as a transformer of the whole state. */
    method Apply(f: DrawableState -> DrawableState)
      modifies this
      ensures Snapshot() == f(old(Snapshot()))
    {
      var DrawableState(dm, m1, m2, va, t, r', g', b', a', de, dl, tc, uc, rm) := f(Snapshot());
      AssignMaps(dm, m1, m2, va);
      AssignAttributes(t, r', g', b', a', de);
      AssignCache(dl, tc, uc, rm);
    }

    /** Stores the texture slots and the vertex-array reference (the first third of Apply). */
    method AssignMaps(dm: Option<Texture>, m1: Option<Texture>, m2: Option<Texture>, va: Option<VertexArrayRef>)
      modifies this
      ensures Snapshot() == old(Snapshot()).(diffuseMap := dm, miscMap1 := m1, miscMap2 := m2, vertArray := va)
    {
      diffuseMap, miscMap1, miscMap2, vertArray := dm, m1, m2, va;
    }

    /** Stores the transform, the tint and the draw-enable flag (the second third of Apply). */
    method AssignAttributes(t: Matrix4, nr: real, ng: real, nb: real, na: real, de: bool)
      modifies this
      ensures Snapshot() == old(Snapshot()).(transform := t, r := nr, g := ng, b := nb, a := na, drawEnable := de)
    {
      transform, r, g, b, a, drawEnable := t, nr, ng, nb, na, de;
    }

    /** Stores the display lists, the dirty flags and the render model (the last third of Apply). */
    method AssignCache(dl: seq<ListId>, tc: bool, uc: bool, rm: RenderModel)
      modifies this
      ensures Snapshot() == old(Snapshot()).(drawLists := dl, texturesChanged := tc, uniformsChanged := uc, renderModel := rm)
    {
      drawLists, texturesChanged, uniformsChanged, renderModel := dl, tc, uc, rm;
    }

    /** The texture half of generateRenderModelData: the diffuse binding, if a plain 2D map is set. */
    method RebuildTextures()
      modifies this
      ensures Snapshot() == old(Snapshot()).(texturesChanged := false,
                                             renderModel := old(renderModel).(textures := TextureEntries(old(diffuseMap))))
    {
      renderModel := renderModel.(textures := []);
      if diffuseMap.Some? && !diffuseMap.value.isCube {
        renderModel := renderModel.(textures := renderModel.textures
                                      + [TextureEntry(DiffuseId, diffuseMap.value.id, Texture2D)]);
      }
      texturesChanged := false;
    }

    /** The uniform half of generateRenderModelData: the transform unless identity, the colour unless white. */
    method RebuildUniforms()
      modifies this
      ensures Snapshot() == old(Snapshot()).(uniformsChanged := false,
                                             renderModel := old(renderModel).(uniforms := UniformEntries(old(transform), old(r), old(g), old(b), old(a))))
    {
      renderModel := renderModel.(uniforms := []);
      if transform != Identity {
        renderModel := renderModel.(uniforms := renderModel.uniforms + [UniformEntry(TransformId, transform.cells)]);
      }
      if r != 1.0 || g != 1.0 || b != 1.0 || a != 1.0 {
        renderModel := renderModel.(uniforms := renderModel.uniforms + [UniformEntry(ColorId, [r, g, b, a])]);
      }
      uniformsChanged := false;
    }

    /** Rebuilds the dirty halves of the render model and returns it. */
    method GenerateRenderModelData() returns (rm: RenderModel)
      modifies this
      ensures Snapshot() == Generate(old(Snapshot()))
      ensures rm == renderModel
    {
      if texturesChanged {
        RebuildTextures();
      }
      if uniformsChanged {
        RebuildUniforms();
      }
      rm := renderModel;
    }

    /** Binds a model: its display list if it has one, its vertex array object if it delivers one; either, both or neither. */
    method SetModel(model: Model)
      modifies this
      ensures Snapshot() == SetModelState(old(Snapshot()), model)
    {
      if model.haveListId {
        AddDrawList(model.listId);
      }
      if model.haveVertexArrayObject {
        var (haveVao, vao, elementCount) := model.GetVertexArrayObject();
        if haveVao {
          SetVertexArrayObject(vao, elementCount);
        }
      }
    }
  }
}
