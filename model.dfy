/** The garment registry of src/model.js: the loaded garment objects (`models`), one
    customization record per garment (`modelStates`) and the active garment
    (`currentModelName`). A garment's meshes all share one material here. */
module Model {
  import opened Basics
  import opened Three
  import opened Canvas2D

  /** What a material samples its colour from: the tiled fabric image it is created with,
      or a CanvasTexture made from a composite canvas. */
  datatype Texture = FabricMap | CanvasMap(surface: Surface)

  datatype Material = Material(color: Color, texture: Texture, emissive: Color, emissiveMap: Option<Texture>)

  /** The parts of a garment's scene object that the core changes. */
  datatype Garment = Garment(visible: bool, position: Vec3, scale: Vec3, rotation: Vec3, material: Material)

  /** modelStates[name]: where the garment starts, and its stored customization. */
  datatype ModelState = ModelState(initialPosition: Vec3, initialScale: Vec3, initialRotation: Vec3,
                                   currentColor: Color, compositeCanvas: Option<Surface>)

  /** All of model.js's module state as one value. */
  datatype Registry = Registry(models: map<string, Garment>, states: map<string, ModelState>, current: Option<string>)

  const FirstGarment := "T-Shirt 1"
  const SecondGarment := "T-Shirt 2"

  /** models[currentModelName] exists. */
  predicate ModelLoaded(reg: Registry)
  {
    reg.current.Some? && reg.current.value in reg.models
  }

  /** Every loaded garment has a record, and the active garment is loaded. */
  ghost predicate Consistent(reg: Registry)
  {
    && reg.models.Keys <= reg.states.Keys
    && (reg.current.Some? ==> reg.current.value in reg.models)
  }

  /** The record a garment gets when it finishes loading, given the uniform scale that
      fits it into the target size. */
  function LoadedState(scaleFactor: real): (s: ModelState)
    ensures s.initialPosition == Vec3(0.0, 2.0, 0.0) && s.initialRotation == Origin
    ensures s.initialScale.x == s.initialScale.y == s.initialScale.z == scaleFactor
    ensures s.currentColor == White && s.compositeCanvas == None
  {
    ModelState(Vec3(0.0, 2.0, 0.0), Vec3(scaleFactor, scaleFactor, scaleFactor), Origin, White, None)
  }

  /** A freshly loaded garment object: hidden, at (0, 2, 0), with the white fabric material. */
  function LoadedGarment(scaleFactor: real): Garment
  {
    Garment(false, Vec3(0.0, 2.0, 0.0), Vec3(scaleFactor, scaleFactor, scaleFactor), Origin,
            Material(White, FabricMap, Black, None))
  }

  /** getCurrentColor(name): the stored colour, white for a garment without a record. */
  function GetCurrentColor(reg: Registry, name: string): (c: Color)
    ensures name in reg.states ==> c == reg.states[name].currentColor
    ensures name !in reg.states ==> c == White
  {
    if name in reg.states then reg.states[name].currentColor else White
  }

  /** getCompositeCanvas(name): the stored composite, none for a garment without a record. */
  function GetCompositeCanvas(reg: Registry, name: string): (s: Option<Surface>)
    ensures name in reg.states ==> s == reg.states[name].compositeCanvas
    ensures name !in reg.states ==> s == None
  {
    if name in reg.states then reg.states[name].compositeCanvas else None
  }

  /** resetModelToInitial(name): back to the stored initial transform, and visible. */
  function Reset(reg: Registry, name: string): Registry
  {
    if name in reg.models && name in reg.states then
      var st := reg.states[name];
      var g := reg.models[name];
      reg.(models := reg.models[name := g.(position := st.initialPosition, scale := st.initialScale,
                                           rotation := st.initialRotation, visible := true)])
    else reg
  }

  /** The stored customization re-applied to a material: the colour always, the
      composite only when one is stored. */
  function Reapply(m: Material, st: ModelState): Material
  {
    m.(color := st.currentColor,
       texture := if st.compositeCanvas.Some? then CanvasMap(st.compositeCanvas.value) else m.texture)
  }

  /** switchModel(name). */
  function Switch(reg: Registry, name: string): Registry
    requires Consistent(reg)
  {
    if reg.current == Some(name) || name !in reg.models then reg
    else
      var hidden :=
        if reg.current.Some? && reg.current.value in reg.models
        then reg.models[reg.current.value := reg.models[reg.current.value].(visible := false)]
        else reg.models;
      var shown := Registry(hidden[name := hidden[name].(visible := true)], reg.states, Some(name));
      var reset := Reset(shown, name);
      var g := reset.models[name];
      reset.(models := reset.models[name := g.(material := Reapply(g.material, reg.states[name]))])
  }

  /** setCurrentColor(color, name): stores the colour and paints it on the garment. */
  function StoreColor(reg: Registry, color: Color, name: string): Registry
  {
    if name !in reg.states then reg
    else
      var st := reg.states[name].(currentColor := color);
      var models :=
        if name in reg.models
        then reg.models[name := reg.models[name].(material := reg.models[name].material.(color := color))]
        else reg.models;
      Registry(models, reg.states[name := st], reg.current)
  }

  /** setCompositeCanvas(canvas, name): stores the composite and maps it on the garment. */
  function StoreComposite(reg: Registry, surface: Surface, name: string): Registry
  {
    if name !in reg.states then reg
    else
      var st := reg.states[name].(compositeCanvas := Some(surface));
      var models :=
        if name in reg.models
        then reg.models[name := reg.models[name].(material := reg.models[name].material.(texture := CanvasMap(surface)))]
        else reg.models;
      Registry(models, reg.states[name := st], reg.current)
  }

  /** loadTShirtModels(): each garment that loads gets its record; only when both load are
      they registered, the first made active, visible and reset. A load is described by
      the scale factor its bounding box gave, or None when it failed. */
  function LoadAll(reg: Registry, first: Option<real>, second: Option<real>): Registry
  {
    var states1 := if first.Some? then reg.states[FirstGarment := LoadedState(first.value)] else reg.states;
    var states2 := if second.Some? then states1[SecondGarment := LoadedState(second.value)] else states1;
    if first.Some? && second.Some? then
      var models := reg.models[FirstGarment := LoadedGarment(first.value)][SecondGarment := LoadedGarment(second.value)];
      var active := models[FirstGarment := models[FirstGarment].(visible := true)];
      Reset(Registry(active, states2, Some(FirstGarment)), FirstGarment)
    else reg.(states := states2)
  }

  // ----- properties of the registry operations -----

  lemma {:induction false} SwitchPreservesConsistency(reg: Registry, name: string)
    requires Consistent(reg)
    ensures Consistent(Switch(reg, name))
    ensures Switch(reg, name).states == reg.states
    ensures Switch(reg, name).models.Keys == reg.models.Keys
  {
  }

  /** switchModel is a no-op for the active garment and for an unknown one. */
  lemma SwitchNoOp(reg: Registry, name: string)
    requires Consistent(reg)
    requires reg.current == Some(name) || name !in reg.models
    ensures Switch(reg, name) == reg
  {
  }

  /** Otherwise the previous garment is hidden and nothing else of it changes, the new one shown at its initial transform,
      made active, and its stored colour (and composite, when there is one) re-applied. */
  lemma SwitchEffect(reg: Registry, name: string)
    requires Consistent(reg)
    requires reg.current != Some(name) && name in reg.models
    ensures var r := Switch(reg, name);
      var st := reg.states[name];
      var g := r.models[name];
      && r.current == Some(name)
      && g.visible
      && g.position == st.initialPosition && g.scale == st.initialScale && g.rotation == st.initialRotation
      && g.material.color == st.currentColor
      && g.material.texture == (if st.compositeCanvas.Some? then CanvasMap(st.compositeCanvas.value) else reg.models[name].material.texture)
      && g.material.emissive == reg.models[name].material.emissive
      && g.material.emissiveMap == reg.models[name].material.emissiveMap
      && r.states == reg.states && r.models.Keys == reg.models.Keys
      && (reg.current.Some? ==> r.models[reg.current.value] == reg.models[reg.current.value].(visible := false))
      && (forall other :: other in reg.models && other != name && Some(other) != reg.current ==> r.models[other] == reg.models[other])
  {
  }

  /** setCurrentColor changes only the named garment's colour, in its record and on its
      material: its composite, the rest of the garment and every other garment stay as they were. */
  lemma SetColorIsolation(reg: Registry, color: Color, name: string)
    ensures var r := StoreColor(reg, color, name);
      && r.current == reg.current
      && (name !in reg.states ==> r == reg)
      && (name in reg.states ==>
            GetCurrentColor(r, name) == color && GetCompositeCanvas(r, name) == GetCompositeCanvas(reg, name))
      && r.models.Keys == reg.models.Keys
      && (name in reg.states && name in reg.models ==>
            r.models[name] == reg.models[name].(material := reg.models[name].material.(color := color)))
      && (forall other :: other != name ==>
            GetCurrentColor(r, other) == GetCurrentColor(reg, other) && GetCompositeCanvas(r, other) == GetCompositeCanvas(reg, other))
      && (forall other :: other != name && other in reg.models ==> other in r.models && r.models[other] == reg.models[other])
  {
  }

  /** setCompositeCanvas changes only the named garment's composite, in its record and as its
      material's map: the rest of the garment and every other garment stay as they were. */
  lemma SetCompositeIsolation(reg: Registry, surface: Surface, name: string)
    ensures var r := StoreComposite(reg, surface, name);
      && r.current == reg.current
      && (name !in reg.states ==> r == reg)
      && (name in reg.states ==>
            GetCompositeCanvas(r, name) == Some(surface) && GetCurrentColor(r, name) == GetCurrentColor(reg, name))
      && r.models.Keys == reg.models.Keys
      && (name in reg.states && name in reg.models ==>
            r.models[name] == reg.models[name].(material := reg.models[name].material.(texture := CanvasMap(surface))))
      && (forall other :: other != name ==>
            GetCurrentColor(r, other) == GetCurrentColor(reg, other) && GetCompositeCanvas(r, other) == GetCompositeCanvas(reg, other))
      && (forall other :: other != name && other in reg.models ==> other in r.models && r.models[other] == reg.models[other])
  {
  }

  /** Round trip: after storing a colour and a composite on garment a, switching to b and
      back to a re-applies exactly what was stored on a, and leaves both records intact. */
  lemma {:induction false} SwitchRoundTrip(reg: Registry, a: string, b: string, color: Color, surface: Surface)
    requires Consistent(reg)
    requires reg.current == Some(a) && b in reg.models && a != b
    ensures var stored := StoreComposite(StoreColor(reg, color, a), surface, a);
      var back := Switch(Switch(stored, b), a);
      && back.current == Some(a)
      && back.models[a].material.color == color
      && back.models[a].material.texture == CanvasMap(surface)
      && GetCurrentColor(back, a) == color && GetCompositeCanvas(back, a) == Some(surface)
      && back.states == stored.states
      && !back.models[b].visible && back.models[a].visible
  {
    var stored := StoreComposite(StoreColor(reg, color, a), surface, a);
    assert Consistent(stored);
    var there := Switch(stored, b);
    SwitchPreservesConsistency(stored, b);
    SwitchEffect(stored, b);
    SwitchPreservesConsistency(there, a);
    SwitchEffect(there, a);
  }

  /** A freshly loaded registry holds white, composite-free records at (0, 2, 0), and the
      first garment is active only when both loaded. */
  lemma LoadAllEffect(reg: Registry, first: Option<real>, second: Option<real>)
    requires Consistent(reg)
    ensures var r := LoadAll(reg, first, second);
      && Consistent(r)
      && (first.Some? ==> r.states[FirstGarment] == LoadedState(first.value))
      && (second.Some? ==> r.states[SecondGarment] == LoadedState(second.value))
      && (first.Some? && second.Some? ==>
            && r.current == Some(FirstGarment)
            && r.models[FirstGarment].visible && !r.models[SecondGarment].visible
            && r.models[FirstGarment].position == Vec3(0.0, 2.0, 0.0)
            && r.models[FirstGarment].material == Material(White, FabricMap, Black, None))
      && (!(first.Some? && second.Some?) ==> r.models == reg.models && r.current == reg.current)
  {
  }

  /** The registry object: the fields model.js keeps at module level. */
  class Garments {
    var models: map<string, Garment>
    var modelStates: map<string, ModelState>
    var currentModelName: Option<string>

    function Snapshot(): Registry
      reads this
    {
      Registry(models, modelStates, currentModelName)
    }

    ghost predicate Valid()
      reads this
    {
      Consistent(Snapshot())
    }

    /** Nothing loaded yet, no active garment. */
    constructor ()
      ensures Valid() && Snapshot() == Registry(map[], map[], None)
    {
      models, modelStates, currentModelName := map[], map[], None;
    }

    method LoadTShirtModels(first: Option<real>, second: Option<real>)
      requires Valid()
      modifies this
      ensures Valid() && Snapshot() == LoadAll(old(Snapshot()), first, second)
    {
      LoadAllEffect(Snapshot(), first, second);
      if first.Some? {
        modelStates := modelStates[FirstGarment := LoadedState(first.value)];
      }
      if second.Some? {
        modelStates := modelStates[SecondGarment := LoadedState(second.value)];
      }
      if first.Some? && second.Some? {
        models := models[FirstGarment := LoadedGarment(first.value)][SecondGarment := LoadedGarment(second.value)];
        currentModelName := Some(FirstGarment);
        models := models[FirstGarment := models[FirstGarment].(visible := true)];
        ResetModelToInitial(FirstGarment);
      }
    }

    method ResetModelToInitial(name: string)
      modifies this`models
      ensures Snapshot() == Reset(old(Snapshot()), name)
    {
      if name in models && name in modelStates {
        var st := modelStates[name];
        models := models[name := models[name].(position := st.initialPosition, scale := st.initialScale,
                                               rotation := st.initialRotation, visible := true)];
      }
    }

    method SwitchModel(name: string)
      requires Valid()
      modifies this
      ensures Valid() && Snapshot() == Switch(old(Snapshot()), name)
    {
      SwitchPreservesConsistency(Snapshot(), name);
      if currentModelName == Some(name) || name !in models {
        return;
      }
      if currentModelName.Some? && currentModelName.value in models {
        models := models[currentModelName.value := models[currentModelName.value].(visible := false)];
      }
      models := models[name := models[name].(visible := true)];
      currentModelName := Some(name);
      ResetModelToInitial(name);
      var st := modelStates[name];
      var g := models[name];
      var m := g.material.(color := st.currentColor);
      if st.compositeCanvas.Some? {
        m := m.(texture := CanvasMap(st.compositeCanvas.value));
      }
      models := models[name := g.(material := m)];
    }

    method SetCurrentColor(color: Color, name: string)
      modifies this
      ensures Snapshot() == StoreColor(old(Snapshot()), color, name)
      ensures old(Valid()) ==> Valid()
    {
      if name !in modelStates {
        return;
      }
      modelStates := modelStates[name := modelStates[name].(currentColor := color)];
      if name in models {
        models := models[name := models[name].(material := models[name].material.(color := color))];
      }
    }

    method SetCompositeCanvas(surface: Surface, name: string)
      modifies this
      ensures Snapshot() == StoreComposite(old(Snapshot()), surface, name)
      ensures old(Valid()) ==> Valid()
    {
      if name !in modelStates {
        return;
      }
      modelStates := modelStates[name := modelStates[name].(compositeCanvas := Some(surface))];
      if name in models {
        models := models[name := models[name].(material := models[name].material.(texture := CanvasMap(surface)))];
      }
    }
  }
}
