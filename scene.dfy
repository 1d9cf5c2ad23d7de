/**
 * The list of floating objects the `Scene` component of
 * components/star-scene.tsx builds on its first render and keeps in a ref
 * across re-renders, each entry becoming one `Connector` keyed by its id.
 */
module SceneGraph {
  import opened Wrappers
  import opened Catalog

  /** `ConnectorItem`: the props of one floating object. */
  datatype ConnectorItem = ConnectorItem(
    id: string,
    color: string,
    accent: bool,
    scale: real,
    modelType: ModelType,
    materialType: MaterialType)

  /** The thirteen entries the first render pushes, in push order. */
  function SceneEntries(): (r: seq<ConnectorItem>)
    ensures |r| == 13
  {
    [ ConnectorItem("glass-star-blue-1", Palette(GlassBlue)[0], true, 0.7, GlassStar, GlassBlue),
      ConnectorItem("glass-star-blue-2", Palette(GlassBlue)[1], false, 0.6, GlassStar, GlassBlue),
      ConnectorItem("neon-star-1", Palette(Neon)[0], true, 0.5, Star, Neon),
      ConnectorItem("david-marble-1", Palette(Marble)[0], false, 0.6, David, Marble),
      ConnectorItem("glass-star-1", Palette(Glass)[0], false, 0.7, GlassStar, Glass),
      ConnectorItem("jesus-chrome-1", Palette(Chrome)[0], true, 0.3, Crucifix, Chrome),
      ConnectorItem("glass-star-2", Palette(Glass)[1], false, 0.65, GlassStar, Glass),
      ConnectorItem("atreyu-hologram-1", Palette(Hologram)[0], true, 0.4, Atreyu, Hologram),
      ConnectorItem("glass-star-3", Palette(Glass)[2], false, 0.7, GlassStar, Glass),
      ConnectorItem("jesus-hologram-1", Palette(Hologram)[1], true, 0.25, Crucifix, Hologram),
      ConnectorItem("glass-star-4", Palette(Glass)[3], false, 0.75, GlassStar, Glass),
      ConnectorItem("david-glass-1", Palette(GlassBlue)[2], true, 0.5, David, GlassBlue),
      ConnectorItem("glass-star-neon", Palette(Neon)[1], true, 0.7, GlassStar, Neon) ]
  }

  /** The ids are usable as React keys: no two entries share one. */
  predicate UniqueIds(items: seq<ConnectorItem>)
  {
    forall i, j :: 0 <= i < j < |items| ==> items[i].id != items[j].id
  }

  /**
   * An entry is consistent with the asset tables: its colour comes from the
   * palette of its own material, and it is drawn at a positive size.
   */
  predicate WellFormedItem(item: ConnectorItem)
  {
    && item.color in Palette(item.materialType)
    && item.scale > 0.0
    && ModelPath(item.modelType) in Preloaded
    && 0.0 < ModelScale(item.modelType, item.scale) <= 0.8 * item.scale
  }

  /** Thirteen entries with distinct ids, each consistent with the tables. */
  lemma {:induction false} SceneEntriesWellFormed()
    ensures |SceneEntries()| == 13
    ensures UniqueIds(SceneEntries())
    ensures forall item :: item in SceneEntries() ==> WellFormedItem(item)
  {
  }

  /** The ref `connectorsRef` together with the guarded initialisation that fills it. */
  class Scene {
    var connectors: seq<ConnectorItem>

    /** `useRef([])`: the list starts empty. */
    constructor ()
      ensures connectors == []
    {
      connectors := [];
    }

    /** The states the ref can be in: not yet filled, or holding the thirteen entries. */
    predicate Valid()
      reads this
    {
      connectors == [] || connectors == SceneEntries()
    }

    /**
     * One render of `Scene`: when the list is empty the thirteen entries are
     * pushed in order; on any later render the list is left as it is.
     */
    method Render()
      modifies this
      ensures old(connectors) == [] ==> connectors == SceneEntries()
      ensures old(connectors) != [] ==> connectors == old(connectors)
      ensures old(Valid()) ==> Valid() && connectors == SceneEntries()
    {
      if |connectors| == 0 {
        connectors := connectors + SceneEntries();
      }
    }
  }

  /**
   * The first render of a freshly mounted scene, then a re-render: both see
   * the same thirteen well-formed entries with distinct ids.
   */
  method MountAndRerender() returns (first: seq<ConnectorItem>, second: seq<ConnectorItem>)
    ensures first == second
    ensures |first| == 13 && UniqueIds(first)
    ensures forall item :: item in first ==> WellFormedItem(item)
  {
    var scene := new Scene();
    scene.Render();
    first := scene.connectors;
    scene.Render();
    second := scene.connectors;
    SceneEntriesWellFormed();
  }
}
