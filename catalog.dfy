/**
 * The asset tables of the star scene (components/star-scene.tsx): the
 * `MATERIALS` palettes, the `MODELS` paths with the preloaded assets and the
 * `STAR` fallback of the loader, and the per-model scale factor.
 */
module Catalog {
  import opened Wrappers

  /** The keys of `MATERIALS`. */
  datatype MaterialType = Glass | GlassBlue | Chrome | Neon | Marble | Hologram | Studio

  /** The keys of `MODELS`. */
  datatype ModelType = Star | GlassStar | Crucifix | Atreyu | David | Studio

  /** One `MATERIALS` entry: the kind of material and its colour palette. */
  datatype Material = Material(kind: string, colors: seq<string>)

  /** `#rrggbb` with lower-case hexadecimal digits, the form every palette colour takes. */
  predicate IsHexColor(c: string)
  {
    |c| == 7 && c[0] == '#' &&
    forall i :: 1 <= i < 7 ==> c[i] in "0123456789abcdef"
  }

  /** Every element of `s` differs from every other. */
  predicate Distinct<T(==)>(s: seq<T>)
  {
    forall i, j :: 0 <= i < j < |s| ==> s[i] != s[j]
  }

  /** `MATERIALS[t]`: each palette holds four distinct colours. */
  function Materials(t: MaterialType): (r: Material)
    ensures |r.colors| == 4 && Distinct(r.colors)
  {
    match t
    case Glass => Material("transmission", ["#4060ff", "#20ffa0", "#ff4060", "#ffcc00"])
    case GlassBlue => Material("transmission", ["#0033ff", "#0055ff", "#0077ff", "#0099ff"])
    case Chrome => Material("chrome", ["#ffffff", "#cccccc", "#888888", "#444444"])
    case Neon => Material("neon", ["#ff0066", "#00ffff", "#ff00ff", "#ffff00"])
    case Marble => Material("marble", ["#f5f5f5", "#e0e0e0", "#d5d5d5", "#cccccc"])
    case Hologram => Material("hologram", ["#00ffff", "#ff00ff", "#00ff00", "#ffff00"])
    case Studio => Material("studio", ["#ff4400", "#0088ff", "#44ff00", "#ffcc00"])
  }

  /** Every palette colour is written as `#rrggbb`. */
  lemma {:induction false} PaletteColorsAreHex(t: MaterialType, i: int)
    requires 0 <= i < |Palette(t)|
    ensures IsHexColor(Palette(t)[i])
  {
  }

  /** `MATERIALS[t].colors`. */
  function Palette(t: MaterialType): seq<string>
  {
    Materials(t).colors
  }

  /** The glass materials are the two transmission materials; every other kind is distinct. */
  lemma {:induction false} MaterialKinds(t1: MaterialType, t2: MaterialType)
    ensures Materials(t1).kind == Materials(t2).kind <==>
              t1 == t2 || ({t1, t2} == {Glass, GlassBlue})
  {
  }

  /** The assets `useGLTF.preload` fetches ahead of time. */
  const Preloaded: set<string> := {"/models/star.glb", "/models/glass_star.glb", "/models/jesus.glb"}

  /**
   * `MODELS[t]`: only the star, the glass star and the crucifix have assets
   * of their own, and every path is one of the preloaded ones.
   */
  function ModelPath(t: ModelType): (r: string)
    ensures r in Preloaded
    ensures r == "/models/star.glb" <==> t !in {GlassStar, Crucifix}
  {
    match t
    case Star => "/models/star.glb"
    case GlassStar => "/models/glass_star.glb"
    case Crucifix => "/models/jesus.glb"
    case Atreyu => "/models/star.glb"
    case David => "/models/star.glb"
    case Studio => "/models/star.glb"
  }

  /** Two model types share an asset exactly when neither has one of its own apart from the star. */
  lemma {:induction false} SharedPaths(t1: ModelType, t2: ModelType)
    ensures ModelPath(t1) == ModelPath(t2) <==>
              t1 == t2 || (t1 !in {GlassStar, Crucifix} && t2 !in {GlassStar, Crucifix})
  {
  }

  /** What the loading effect of `Model` leaves behind: the asset shown and the `error` flag. */
  datatype LoadOutcome = LoadOutcome(model: Option<string>, error: bool)

  /**
   * The loading effect of `Model`: try the type's own asset; when that
   * fails, set `error` and try the `STAR` asset; when that fails too, show
   * nothing. `loads(path)` says whether loading `path` succeeds.
   */
  function ResolveModel(t: ModelType, loads: string -> bool): (r: LoadOutcome)
    ensures r.error <==> !loads(ModelPath(t))
    ensures r.model.Some? <==> loads(ModelPath(t)) || loads(ModelPath(Star))
    ensures r.model.Some? ==> loads(r.model.value)
    ensures r.model.Some? ==> r.model.value in {ModelPath(t), ModelPath(Star)}
    ensures loads(ModelPath(t)) ==> r.model == Some(ModelPath(t))
  {
    if loads(ModelPath(t)) then
      LoadOutcome(Some(ModelPath(t)), false)
    else if loads(ModelPath(Star)) then
      LoadOutcome(Some(ModelPath(Star)), true)
    else
      LoadOutcome(None, true)
  }

  /**
   * The fallback never shows a different asset for the types that share the
   * star's path: for them the outcome is the first attempt or nothing.
   */
  lemma {:induction false} FallbackIsStar(t: ModelType, loads: string -> bool)
    requires t !in {GlassStar, Crucifix}
    ensures ResolveModel(t, loads).model == ResolveModel(Star, loads).model
    ensures ResolveModel(t, loads).model.Some? ==> ResolveModel(t, loads).model.value == ModelPath(Star)
  {
  }

  /**
   * `modelScale`: the `scale` prop times a factor per model type (the
   * `default` branch covers `STAR`). A positive scale gives a positive
   * result of at most 0.8 times the prop.
   */
  function ModelScale(t: ModelType, scale: real): (r: real)
    ensures scale > 0.0 ==> 0.0 < r <= 0.8 * scale
    ensures scale == 0.0 ==> r == 0.0
  {
    match t
    case Crucifix => scale * 0.15
    case GlassStar => scale * 0.8
    case Atreyu => scale * 0.2
    case David => scale * 0.15
    case Studio => scale * 0.05
    case Star => scale * 0.8
  }

  /** The scale is linear in the prop, so a larger prop never gives a smaller model. */
  lemma {:induction false} ModelScaleMonotone(t: ModelType, s1: real, s2: real)
    requires s1 <= s2
    ensures ModelScale(t, s1) <= ModelScale(t, s2)
    ensures ModelScale(t, s2) - ModelScale(t, s1) == ModelScale(t, s2 - s1)
  {
  }
}
