/**
 * How the scene turns settings into lights, a background and, until the
 * model file is available, a placeholder model (src/components/Scene.tsx:
 * `Lighting`, `SceneBackground`, `FallbackModel`, `Model`, `Scene`).
 */
module SceneRender {
  import opened Values
  import opened PartColors

  /** `Math.max(lo, Math.min(hi, x || fallback))` for the setting `x`. */
  function IntensityOr(x: Option<Value>, fallback: real, lo: real, hi: real): (r: Num)
    requires lo <= fallback <= hi
    ensures r.Finite? ==> lo <= r.r <= hi
    ensures !Truthy(x) ==> r == Finite(fallback)
    ensures x.Some? && x.value.Number? && x.value.n.Finite? && x.value.n.r != 0.0 ==> r == Finite(Clamp(lo, hi, x.value.n.r))
    ensures r.NaN? <==> Truthy(x) && ToNumber(x).NaN?
  {
    if Truthy(x) then ClampNum(lo, hi, ToNumber(x)) else Finite(fallback)
  }

  /** The ambient light of `Lighting`. */
  datatype AmbientLight = AmbientLight(color: Value, intensity: Num)

  /** The directional light of `Lighting`; its position is not part of this model. */
  datatype DirectionalLight = DirectionalLight(intensity: Num, castShadow: bool)

  function Ambient(s: Settings): (a: AmbientLight)
    ensures Truthy(Lookup(s, "ambientLightColor")) ==> a.color == s["ambientLightColor"]
    ensures !Truthy(Lookup(s, "ambientLightColor")) ==> a.color == Text("#ffffff")
    ensures a.intensity == IntensityOr(Lookup(s, "ambientLightIntensity"), 0.5, 0.0, 5.0)
  {
    var color := if Truthy(Lookup(s, "ambientLightColor")) then s["ambientLightColor"] else Text("#ffffff");
    AmbientLight(color, IntensityOr(Lookup(s, "ambientLightIntensity"), 0.5, 0.0, 5.0))
  }

  function Directional(s: Settings): (d: DirectionalLight)
    ensures d.intensity == IntensityOr(Lookup(s, "directionalLightIntensity"), 1.0, 0.0, 10.0)
    ensures d.castShadow <==> Truthy(Lookup(s, "enableShadows"))
  {
    DirectionalLight(IntensityOr(Lookup(s, "directionalLightIntensity"), 1.0, 0.0, 10.0),
                     Truthy(Lookup(s, "enableShadows")))
  }

  /**
   * A numeric (possibly NaN) or missing intensity always yields a light
   * intensity within bounds: 0 and NaN fall back to 0.5 for the ambient
   * light and to 1 for the directional light.
   */
  lemma NumericIntensitiesStayInBounds(s: Settings)
    requires "ambientLightIntensity" in s ==> s["ambientLightIntensity"].Number?
    requires "directionalLightIntensity" in s ==> s["directionalLightIntensity"].Number?
    ensures Ambient(s).intensity.Finite? && 0.0 <= Ambient(s).intensity.r <= 5.0
    ensures Directional(s).intensity.Finite? && 0.0 <= Directional(s).intensity.r <= 10.0
  {
  }

  /** `hdriIntensity * 0.5`, the environment's ambient fill. */
  function HdriFill(s: Settings): (f: Num)
    ensures FiniteNumber(Lookup(s, "hdriIntensity")).Some? ==> f == Finite(FiniteNumber(Lookup(s, "hdriIntensity")).value / 2.0)
    ensures Lookup(s, "hdriIntensity").None? ==> f.NaN?
  {
    match ToNumber(Lookup(s, "hdriIntensity"))
    case NaN => NaN
    case Finite(v) => Finite(v * 0.5)
  }

  const HdriFile: string := "/hdri/studio_small_09_1k.hdr"
  const StudioBackground: string := "#f0f0f0"

  /** The three mutually exclusive background modes of `SceneBackground`. */
  datatype Backdrop =
    | HdriBackdrop(file: string, fill: Num)
    | StudioBackdrop(preset: string, fill: Num, background: string)
    | ColorBackdrop(color: Option<Value>)

  function ChooseBackdrop(s: Settings): (b: Backdrop)
    ensures b.HdriBackdrop? <==> Lookup(s, "backgroundType") == Some(Text("hdri"))
    ensures b.StudioBackdrop? <==> Lookup(s, "backgroundType") == Some(Text("studio"))
    ensures b.HdriBackdrop? ==> b.file == HdriFile
    ensures b.StudioBackdrop? ==> b.preset == "studio" && b.background == StudioBackground
    ensures !b.ColorBackdrop? ==> b.fill == HdriFill(s)
    ensures b.ColorBackdrop? ==> b.color == Lookup(s, "backgroundColor")
  {
    var kind := Lookup(s, "backgroundType");
    if kind == Some(Text("hdri")) then HdriBackdrop(HdriFile, HdriFill(s))
    else if kind == Some(Text("studio")) then StudioBackdrop("studio", HdriFill(s), StudioBackground)
    else ColorBackdrop(Lookup(s, "backgroundColor"))
  }

  /** The contact-shadow layer, with its opacity setting. */
  datatype Shadows = NoContactShadows | ContactShadows(opacity: Option<Value>)

  /** One of the four primitive meshes of `FallbackModel`, with the settings it is drawn with. */
  datatype PlaceholderMesh = PlaceholderMesh(name: string, color: Option<Value>, roughness: Option<Value>, metalness: Option<Value>)

  function PlaceholderName(p: Part): string {
    match p
    case Part1 => "Part1002"
    case Part2 => "Part2002"
    case Part3 => "Part3004"
    case Part4 => "Part4004"
  }

  const PlaceholderParts: seq<Part> := [Part1, Part2, Part3, Part4]

  /** `FallbackModel`: one mesh per part, coloured with that part's colour setting, whatever the model. */
  function Placeholder(s: Settings): (ms: seq<PlaceholderMesh>)
    ensures |ms| == 4
    ensures forall k :: 0 <= k < 4 ==>
              (ms[k].name == PlaceholderName(PlaceholderParts[k]) &&
               ms[k].color == Lookup(s, ColorKey(PlaceholderParts[k])) &&
               ms[k].roughness == Lookup(s, "roughness") &&
               ms[k].metalness == Lookup(s, "metalness"))
  {
    seq(4, k requires 0 <= k < 4 =>
      PlaceholderMesh(PlaceholderName(PlaceholderParts[k]), Lookup(s, ColorKey(PlaceholderParts[k])),
                      Lookup(s, "roughness"), Lookup(s, "metalness")))
  }

  /**
   * The placeholder's mesh names are the 4-piece model's part names: under
   * any model but the 2-piece one, each resolves to the slot whose colour
   * the placeholder gives it.
   */
  lemma PlaceholderNamesResolveToTheirParts(model: string, p: Part)
    requires model != TwoPiece
    ensures ResolvePart(model, PlaceholderName(p)) == Some(p)
  {
    match p
    case Part1 => FirstPlaceholderResolves(model, PlaceholderName(p));
    case Part2 => SecondPlaceholderResolves(model, PlaceholderName(p));
    case Part3 => ThirdPlaceholderResolves(model, PlaceholderName(p));
    case Part4 => FourthPlaceholderResolves(model, PlaceholderName(p));
  }

  lemma FirstPlaceholderResolves(model: string, name: string)
    requires model != TwoPiece && name == "Part1002"
    ensures ResolvePart(model, name) == Some(Part1)
  {
    var n := ToLower(name);
    LowerInitialCapital(name);
    assert n == "part1002";
    assert "part1002" <= n;
  }

  lemma SecondPlaceholderResolves(model: string, name: string)
    requires model != TwoPiece && name == "Part2002"
    ensures ResolvePart(model, name) == Some(Part2)
  {
    var n := ToLower(name);
    LowerInitialCapital(name);
    assert n == "part2002";
    assert "part2002" <= n;
    LowerNeverIncludesCapital(name, "Part1002");
    SameLengthIncludes(n, "part1002");
  }

  lemma ThirdPlaceholderResolves(model: string, name: string)
    requires model != TwoPiece && name == "Part3004"
    ensures ResolvePart(model, name) == Some(Part3)
  {
    LowerInitialCapital(name);
    assert ToLower(name) == "part3004";
    LoweredThirdResolves(model, name);
  }

  lemma FourthPlaceholderResolves(model: string, name: string)
    requires model != TwoPiece && name == "Part4004"
    ensures ResolvePart(model, name) == Some(Part4)
  {
    LowerInitialCapital(name);
    assert ToLower(name) == "part4004";
    LoweredFourthResolves(model, name);
  }

  /** What the loaded-model slot shows: the placeholder until the model's scene is supplied. */
  datatype ModelView = PlaceholderModel(meshes: seq<PlaceholderMesh>) | LoadedModel

  /** The scene's render-affecting output for the settings `s`. */
  datatype SceneView = SceneView(backdrop: Backdrop, ambient: AmbientLight, directional: DirectionalLight,
                                 shadows: Shadows, model: ModelView)

  /** `Scene`: background, lights, model (placeholder while `sceneLoaded` is false) and the optional contact shadows. */
  function Describe(s: Settings, sceneLoaded: bool): (v: SceneView)
    ensures v.backdrop == ChooseBackdrop(s) && v.ambient == Ambient(s) && v.directional == Directional(s)
    ensures v.shadows.ContactShadows? <==> Truthy(Lookup(s, "enableShadows"))
    ensures v.shadows.ContactShadows? <==> v.directional.castShadow
    ensures v.shadows.ContactShadows? ==> v.shadows.opacity == Lookup(s, "shadowOpacity")
    ensures v.model.PlaceholderModel? <==> !sceneLoaded
    ensures !sceneLoaded ==> v.model.meshes == Placeholder(s)
  {
    var shadows := if Truthy(Lookup(s, "enableShadows")) then ContactShadows(Lookup(s, "shadowOpacity")) else NoContactShadows;
    SceneView(ChooseBackdrop(s), Ambient(s), Directional(s), shadows,
              if sceneLoaded then LoadedModel else PlaceholderModel(Placeholder(s)))
  }
}
