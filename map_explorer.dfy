/** src/pages/MapExplorer.tsx: the three map layers that can be switched on
    and off, and the info panel opened from the location pin. */
module MapExplorer {

  datatype Layer = Rainfall | Aquifers | RechargeStructures

  /** `activeLayers`. */
  datatype Layers = Layers(rainfall: bool, aquifers: bool, rechargeStructures: bool)

  const InitialLayers := Layers(true, false, true)

  function IsActive(ls: Layers, l: Layer): bool
  {
    match l
    case Rainfall => ls.rainfall
    case Aquifers => ls.aquifers
    case RechargeStructures => ls.rechargeStructures
  }

  /** `{ ...activeLayers, [layer]: !activeLayers[layer] }`. */
  function Toggle(ls: Layers, l: Layer): (r: Layers)
    ensures IsActive(r, l) == !IsActive(ls, l)
    ensures forall m :: m != l ==> IsActive(r, m) == IsActive(ls, m)
  {
    match l
    case Rainfall => ls.(rainfall := !ls.rainfall)
    case Aquifers => ls.(aquifers := !ls.aquifers)
    case RechargeStructures => ls.(rechargeStructures := !ls.rechargeStructures)
  }

  /** Layers are equal when every layer has the same state. */
  lemma LayersExtensional(a: Layers, b: Layers)
    requires forall l :: IsActive(a, l) == IsActive(b, l)
    ensures a == b
  {
    assert IsActive(a, Rainfall) == IsActive(b, Rainfall);
    assert IsActive(a, Aquifers) == IsActive(b, Aquifers);
    assert IsActive(a, RechargeStructures) == IsActive(b, RechargeStructures);
  }

  /** Toggling a layer twice restores the map. */
  lemma ToggleTwice(ls: Layers, l: Layer)
    ensures Toggle(Toggle(ls, l), l) == ls
  {
    LayersExtensional(Toggle(Toggle(ls, l), l), ls);
  }

  /** The order in which two layers are toggled does not matter. */
  lemma ToggleCommutes(ls: Layers, a: Layer, b: Layer)
    ensures Toggle(Toggle(ls, a), b) == Toggle(Toggle(ls, b), a)
  {
    LayersExtensional(Toggle(Toggle(ls, a), b), Toggle(Toggle(ls, b), a));
  }

  class MapExplorerPage {
    var showInfo: bool
    var activeLayers: Layers

    constructor ()
      ensures !showInfo && activeLayers == InitialLayers
    {
      showInfo := false;
      activeLayers := InitialLayers;
    }

    /** A layer checkbox's `onChange`. */
    method ToggleLayer(l: Layer)
      modifies this
      ensures activeLayers == Toggle(old(activeLayers), l)
      ensures showInfo == old(showInfo)
    {
      activeLayers := Toggle(activeLayers, l);
    }

    /** The pin button: `setShowInfo(!showInfo)`. */
    method TogglePin()
      modifies this
      ensures showInfo == !old(showInfo)
      ensures activeLayers == old(activeLayers)
    {
      showInfo := !showInfo;
    }

    /** The panel's close button. */
    method CloseInfo()
      modifies this
      ensures !showInfo
      ensures activeLayers == old(activeLayers)
    {
      showInfo := false;
    }
  }
}
