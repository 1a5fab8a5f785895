# Drawables and the layered drawable registry

The project models two pieces of the renderer's scene layer.

- **The drawable** (`DRAWABLE`, src/drawable.cpp), in `drawable.dfy`, module `Drawables`.
  - A `Drawable` is a class with one field per attribute: three texture slots, the vertex array, the transform, the RGBA tint, the draw-enable flag, the display lists, two dirty flags (`texturesChanged`, `uniformsChanged`) and the cached render model.
  - Each setter is a method whose `ensures` gives the drawable's whole new state, as a `DrawableState` value (`Snapshot()`).
  - `GenerateRenderModelData` is proved against the state function `Generate`. Lemmas about `Generate` state its two-flag cache discipline:
    - only a dirty half is rebuilt;
    - defaults are left out of the lists;
    - the cache invariant `Coherent` holds after every setter and after a rebuild;
    - a second rebuild changes nothing.
- **The registry** (`DRAWABLE_CONTAINER`, include/drawable_container.h), in `drawable_container.dfy`, module `Registry`.
  - A `DrawableContainer` is a class with thirteen sequence fields, one per layer. The fields hold references to `Drawable` objects, so one drawable can sit in an owning registry and in a registry of pointers built from it by `AppendTo`.
  - Each bulk operation is a method with a loop over the fixed layer order `LayerOrder`. Its `ensures` state the new contents of every layer and the new state of every drawable (`States()`).
  - `ForEach` itself is the pure fold `Registry.ForEach`. The lemmas prove it visits each of the thirteen layers exactly once, in the order of the source.

`Wrappers.Option` stands for a null `shared_ptr`, a null pointer and an unset `reseatable_reference`.

## Model

| member | source | states |
|---|---|---|
| `Drawables.Drawable.SetDiffuseMap` | src/drawable.cpp:5-9 | The diffuse slot takes the handle and `texturesChanged` is raised. Every other attribute and flag keeps its value. |
| `Drawables.Drawable.SetMiscMap1` | src/drawable.cpp:11-15 | Misc slot 1 takes the handle and `texturesChanged` is raised. Nothing else changes. |
| `Drawables.Drawable.SetMiscMap2` | src/drawable.cpp:17-21 | Misc slot 2 takes the handle and `texturesChanged` is raised. Nothing else changes. |
| `Drawables.Drawable.SetVertArray` | src/drawable.cpp:23-27 | The reference is stored at once in the drawable and in its render model. Neither dirty flag is touched. |
| `Drawables.Drawable.SetVertexArrayObject` | src/drawable.cpp:29-32 | Only the render model's VAO and element count change. |
| `Drawables.Drawable.SetTransform` | src/drawable.cpp:34-38 | The transform is stored and `uniformsChanged` is raised. `texturesChanged` and the rest are kept. |
| `Drawables.Drawable.SetColor` | src/drawable.cpp:40-47 | r, g, b and a are stored and `uniformsChanged` is raised. Nothing else changes. |
| `Drawables.Drawable.SetColorRgb` | src/drawable.cpp:48-54 | r, g and b are stored, `a` is kept and `uniformsChanged` is raised. |
| `Drawables.Drawable.SetAlpha` | src/drawable.cpp:55-59 | Only `a` is stored and `uniformsChanged` is raised. |
| `Drawables.TextureEntries` | src/drawable.cpp:75-79 | The rebuilt texture list is non-empty iff a diffuse map is set and is not a cube map. It then holds exactly the entry (diffuse id, the map's id, GL_TEXTURE_2D). The misc maps never contribute. |
| `Drawables.UniformEntries` | src/drawable.cpp:87-91 | The rebuilt uniform list has one entry per non-default attribute, so at most two. A transform entry comes first when the transform is not the identity. A tint entry [r, g, b, a] comes last when the tint is not white. |
| `Drawables.UniformBindings` | src/drawable.cpp:88-91 | The list binds the transform name iff the transform is not the identity, and the tint name iff some channel differs from 1. It binds no other name. |
| `Drawables.Drawable.RebuildTextures` | src/drawable.cpp:73-82 | The texture list becomes `TextureEntries(diffuse map)` and `texturesChanged` is lowered. Nothing else changes. |
| `Drawables.Drawable.RebuildUniforms` | src/drawable.cpp:84-94 | The uniform list becomes `UniformEntries(transform, tint)` and `uniformsChanged` is lowered. Nothing else changes. |
| `Drawables.Generate` | src/drawable.cpp:61-97 | Both flags end lowered. A half whose flag was raised is rebuilt and one whose flag was clear is kept as it was. Geometry and every attribute are kept. |
| `Drawables.Drawable.GenerateRenderModelData` | src/drawable.cpp:61-97 | The new state is `Generate` of the old one, and the returned render model is the drawable's own. |
| `Drawables.GenerateMakesCurrent` | src/drawable.cpp:73-94 | On a coherent drawable, a rebuild leaves both lists current and keeps the cache invariant. |
| `Drawables.GenerateIdempotent` | src/drawable.cpp:73-94 | A second rebuild with no setter in between changes nothing. |
| `Drawables.SettersPreserveCoherence` | src/drawable.cpp:5-59 | Every setter keeps the cache invariant: a half is stale only while its flag is raised, and the render model draws the drawable's vertex array. |
| `Drawables.DiffuseChangeNeedsFlag` | src/drawable.cpp:5-9 | Without raising `texturesChanged`, setting a 2D diffuse map on a drawable with none would leave the texture list stale. |
| `Drawables.DefaultRendersNothing` | src/drawable.cpp:72-94 | An untouched drawable (identity, white, no maps) renders with empty texture and uniform lists. |
| `Drawables.HalfAlphaBindsTintOnly` | src/drawable.cpp:85-94 | After `SetAlpha(0.5)` on an untouched drawable, the one uniform is the tint (1, 1, 1, 0.5). |
| `Drawables.SetModelState` | src/drawable.cpp:99-114 | The model's display list is appended iff it has one. VAO and element count are taken iff it has a vertex array object that it delivers. The two are independent, and nothing else changes. |
| `Drawables.Drawable.SetModel` | src/drawable.cpp:99-114 | The new state is `SetModelState` of the old state and the model. |
| `Drawables.Drawable.Apply` | include/drawable_container.h:64 | One call of a per-drawable functor: the drawable's new state is the functor applied to its old one. |
| `Registry.GetByName` | include/drawable_container.h:153-172 | A returned layer has exactly the given member name. No layer is returned iff no layer has that name. |
| `Registry.GetByNameFindsEveryLayer` | include/drawable_container.h:153-172 | Each of the thirteen layers is found under its own name. |
| `Registry.ForEach` | include/drawable_container.h:113-129 | The fold hands the functor each layer of `LayerOrder` in turn and threads the functor's state. It equals the reference fold read from the back (`FoldFromBack`), so the last layer is handed over last, to the state the earlier layers left. The fold passes layer names, not the registry, so it cannot change a layer. The loops of the bulk methods over `LayerOrder` make the same visits. |
| `Registry.FoldFromBackFirst` | include/drawable_container.h:113-129 | Read from the back, the fold still hands the first layer over first and continues from the state that call returns. |
| `Registry.LayerOrderIsComplete` | include/drawable_container.h:113-129 | The visit order lists each of the thirteen layers, and lists none twice. |
| `Registry.ForEachVisitsEachLayerOnce` | include/drawable_container.h:113-129 | ForEach hands the functor the layers in the order twodim, normal_noblend, …, lights_omni, each exactly once. |
| `Registry.SetVisibilityIn` | include/drawable_container.h:10-22 | Every drawable of the layer ends with draw-enable `vis`. Nothing else about it changes. |
| `Registry.SetAlphaIn` | include/drawable_container.h:23-35 | Every drawable of the layer ends with alpha `a` and its uniform flag raised. Nothing else changes. |
| `Registry.ApplyFunctorIn` | include/drawable_container.h:54-67 | A drawable met k times in the layer has the functor applied k times. |
| `Registry.AddDrawableToContainer` | include/drawable_container.h:68-77 | The drawable is appended by reference iff it is enabled, and takes the transform only then and only when asked. |
| `Registry.EnabledOfMembers` | include/drawable_container.h:78-86 | What is appended is exactly the enabled drawables of the source: none disabled, none missed. |
| `Registry.StampedIdempotent` | include/drawable_container.h:71-75 | Taking the transform twice is the same as taking it once, so a drawable held twice ends the same as one held once. |
| `Registry.AddDrawablesToContainer` | include/drawable_container.h:78-86 | The result is the destination followed by the source's enabled drawables, in source order. Every source drawable ends stamped: the transform is taken iff it is enabled and `use_transform` is set, and it is otherwise unchanged. |
| `Registry.WrapAdd` | include/drawable_container.h:44-53 | Adding into an unsigned counter one layer at a time gives the sum modulo 2^32. |
| `Registry.DrawableContainer.TotalSizeIsFlattenLength` | include/drawable_container.h:186-192 | The sum of the layer lengths is the number of drawables the registry holds. |
| `Registry.DrawableContainer.TotalSizeZeroIffCleared` | include/drawable_container.h:181-192 | The sum of the layer lengths is 0 iff every layer is empty. |
| `Registry.DrawableContainer.SetLayer` | include/drawable_container.h:153-172 | Writing through the layer reference `GetByName` returns: the named layer becomes the new sequence and every other layer keeps its contents. |
| `Registry.DrawableContainer.SetVisibilityOfLayer` | include/drawable_container.h:10-22 | One `func(x)` of `ForEach` with the `SetVisibility` functor: every drawable of layer x ends with draw-enable `vis`, and every other drawable of the registry keeps its state. |
| `Registry.DrawableContainer.SetAlphaOfLayer` | include/drawable_container.h:23-35 | One `func(x)` of `ForEach` with the `SetAlpha` functor: every drawable of layer x ends with alpha `a` and its uniform flag raised, and every other drawable of the registry keeps its state. |
| `Registry.DrawableContainer.ApplyFunctorToLayer` | include/drawable_container.h:54-67 | One `func(x)` of `ForEach` with `ApplyFunctor`: each drawable of the registry has the functor applied once per position it holds in layer x, so not at all outside it. |
| `Registry.DrawableContainer.Size` | include/drawable_container.h:186-192 | `size()` is the sum of the thirteen layer lengths modulo 2^32, and exactly the sum below 2^32. |
| `Registry.DrawableContainer.Empty` | include/drawable_container.h:181-184 | `empty()` holds iff `size()` is 0, and iff every layer is empty while the sum stays below 2^32. |
| `Registry.DrawableContainer.Clear` | include/drawable_container.h:194-197 | Every layer ends empty, and `clear()` on an empty registry changes nothing. |
| `Registry.DrawableContainer.SetVisibility` | include/drawable_container.h:199-202 | The layers keep their contents. Every drawable of every layer ends with draw-enable `vis`, and no other field of any drawable changes. |
| `Registry.DrawableContainer.SetAlpha` | include/drawable_container.h:204-207 | The layers keep their contents. Every drawable ends with alpha `a` and its uniform flag raised, and nothing else changes. |
| `Registry.DrawableContainer.ForEachDrawable` | include/drawable_container.h:174-179 | The layers keep their contents. Every drawable has the functor applied once per position it holds. In a registry without duplicates that is exactly once. |
| `Registry.DrawableContainer.AppendLayerTo` | include/drawable_container.h:135 | One `ADDTOCONTAINER(x)`: only the destination's layer x grows, by the enabled drawables of layer x. Only layer x's drawables are stamped. |
| `Registry.DrawableContainer.AppendTo` | include/drawable_container.h:131-150 | Source layers are unchanged. Each destination layer becomes its old contents followed by the enabled drawables of the same-named source layer, in source order. Every source drawable is stamped, so with `use_transform` false none changes, and a disabled one never changes. |

## Left out

- include/drawable.h is not part of this model. What it declares is assumed:
  - the defaults an untouched drawable starts from (`DefaultState`): no maps, identity transform, white tint, enabled, both flags raised;
  - `SetDrawEnable` and `GetDrawEnable` as a plain flag;
  - `AddDrawList` as an append to the drawable's display lists.
- Floating point: each `float` is a `real`, so NaN and rounding are not modelled.
- `MATRIX4`: a matrix is its sequence of cells. Only equality with the default (identity) matrix is used; no arithmetic is modelled.
- `StringIdMap`: interning and the function-local static caching are left out. The three binding names are the fixed distinct constants `DiffuseId`, `TransformId` and `ColorId`.
- OpenGL: `GLWrapper`, the `GLuint` handles and the GL calls are left out. `GL_TEXTURE_2D` is the constant 0x0DE1, and a texture is only what `GetID()` and `IsCube()` answer.
- `TEXTURE`, `MODEL`, `VERTEXARRAY` and `RenderModelExternal` internals are values; a vertex array is an opaque identity. `RenderModelExternal::SetVertArray` and `setVertexArrayObject` (src/drawable.cpp:26, :31) are taken to be plain stores into the render model, which the third part of `Coherent` (the render model draws the drawable's vertex array) relies on.
- `GenerateRenderModelData` returns a `RenderModelExternal &` in C++, so a caller can write into the drawable's cache through it. The model returns a copy of the render model, so such writes and the aliasing they create are not modelled.
- `RenderUniformEntry(colorId, &r, 4)` points at the drawable's fields. The model stores a snapshot of the four values at rebuild time, so a later `SetColor` is seen only through `uniformsChanged`.
- `shared_ptr` lifetimes and ownership: an owning layer and a `PTRVECTOR` layer both hold object references. Which registry owns a drawable is not modelled, and `AppendTo` is modelled for an owning source and a pointer destination.
- Template instantiation: in C++ only the container types decide what compiles. The `SetVisibility` and `SetAlpha` functors call members through the iterator (`i->SetDrawEnable` at include/drawable_container.h:19, `i->SetAlpha` at :32), which needs a container of `DRAWABLE` values (an owning layer). On a `PTRVECTOR` layer they do not compile, so `SetVisibility` and `SetAlpha` exist only for owning registries. `AddDrawablesToContainer` binds `*i` to `DRAWABLE &` (:84), so its source must hold values too, and `AddDrawableToContainer` stores `&drawable` (:75), so its destination must hold pointers. `use_transform` only guards `SetTransform` and compiles either way. The model accepts every combination.
- `AppendTo`: the destination must be a different registry from the source (`dest != this`). In C++ the two have different container types, so they cannot be the same object.
- `Registry.DrawableContainer.ForEachDrawable`: a functor is modelled as a pure transformer of one drawable's state. A functor with its own mutable state, or one that touches other drawables or the registry, is not modelled.
- Threading and render submission are left out; the code has neither.
