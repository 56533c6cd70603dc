/** The style and background tables that the prompt builder reads (constants.ts). */
module Constants {
  import opened Types

  /** `STYLES[s]`: the configuration recorded for style `s`. Every entry is
      filed under its own id and carries a title and a prompt modifier. */
  function Style(s: HeadshotStyle): (c: StyleConfig)
    ensures c.id == s
    ensures c.title != "" && c.promptModifier != ""
  {
    match s
    case Corporate => CorporateConfig
    case Creative => CreativeConfig
    case Executive => ExecutiveConfig
    case Sexy => SexyConfig
    case Sensual => SensualConfig
    case Erotic => EroticConfig
    case Meditation => MeditationConfig
    case Glamorous => GlamorousConfig
    case Vintage => VintageConfig
    case Futuristic => FuturisticConfig
    case Cyberpunk => CyberpunkConfig
    case ArtDeco => ArtDecoConfig
    case Fantasy => FantasyConfig
    case SciFi => SciFiConfig
    case Steampunk => SteampunkConfig
    case ThreeD => ThreeDConfig
    case IceAge => IceAgeConfig
    case ArtisticPainting => ArtisticPaintingConfig
  }

  const CorporateConfig: StyleConfig :=
    StyleConfig(
      Corporate,
      "Corporate Classic",
      "Professional, trustworthy, and polished. Ideal for LinkedIn and company websites.",
      "Transform this person into a professional corporate headshot. They should be wearing a sharp business suit (navy or charcoal). Lighting should be even and flattering, high-key photography style. Maintain facial features but improve skin texture slightly.",
      "bg-blue-100 text-blue-600")

  const CreativeConfig: StyleConfig :=
    StyleConfig(
      Creative,
      "Creative Professional",
      "Modern, approachable, and artistic. Perfect for designers, marketers, and startups.",
      "Transform this person into a creative professional headshot. They should be wearing smart-casual attire (e.g., blazer with t-shirt, or stylish shirt). Lighting should be natural and warm.",
      "bg-purple-100 text-purple-600")

  const ExecutiveConfig: StyleConfig :=
    StyleConfig(
      Executive,
      "Executive Portrait",
      "Authoritative, sophisticated, and high-end. Best for leadership roles and press kits.",
      "Transform this person into a high-end executive portrait. They should be wearing a premium dark tailored suit. Lighting should be dramatic, cinematic lighting (rembrandt style). The mood is confident and authoritative.",
      "bg-slate-800 text-white")

  const SexyConfig: StyleConfig :=
    StyleConfig(
      Sexy,
      "Sexy Model",
      "Bold, confident, and magnetic. High-fashion energy.",
      "Transform this person into a charismatic, confident model-style portrait. They should be wearing stylish, attractive clothing. The lighting should be dramatic and high-contrast fashion lighting. The mood is alluring and bold. Focus on a captivating gaze.",
      "bg-pink-100 text-pink-600")

  const SensualConfig: StyleConfig :=
    StyleConfig(
      Sensual,
      "Soft & Mood",
      "Gentle, warm, and emotive. Focus on connection.",
      "Transform this person into a soft, atmospheric portrait. They should be wearing soft textures. The lighting should be golden hour, warm, and diffuse. The expression is gentle, intimate, and inviting.",
      "bg-rose-100 text-rose-600")

  const EroticConfig: StyleConfig :=
    StyleConfig(
      Erotic,
      "Erotic Mood",
      "Intimate, provocative, and artistic boudoir style.",
      "Transform this person into an artistic erotic portrait. Boudoir photography style. High contrast, moody lighting, silk or lace textures. The atmosphere is intimate and seductive. Focus on beauty and allure.",
      "bg-red-100 text-red-600")

  const MeditationConfig: StyleConfig :=
    StyleConfig(
      Meditation,
      "Mindful Zen",
      "Peaceful, calm, and grounded. Ideal for wellness.",
      "Transform this person into a peaceful meditation portrait. They should be wearing light, comfortable organic clothing. The expression is calm, serene, and mindful.",
      "bg-teal-100 text-teal-600")

  const GlamorousConfig: StyleConfig :=
    StyleConfig(
      Glamorous,
      "Hollywood Glamour",
      "High-contrast, elegant, and red-carpet ready.",
      "Transform this person into a glamorous hollywood style portrait. They should be wearing elegant evening wear. The lighting should be dramatic, high-contrast studio lighting with a spotlight effect. The skin should look flawless and glowing.",
      "bg-yellow-100 text-yellow-600")

  const VintageConfig: StyleConfig :=
    StyleConfig(
      Vintage,
      "Timeless Vintage",
      "Retro 50s/60s aesthetic with classic film grain.",
      "Transform this person into a vintage portrait from the 1950s or 60s. Apply a classic film look with slight grain. They should be wearing retro fashion (e.g., tweed, pearls, or classic collars). The lighting should be soft classic studio style. Color grading should be slightly desaturated or sepia-toned.",
      "bg-amber-100 text-amber-700")

  const FuturisticConfig: StyleConfig :=
    StyleConfig(
      Futuristic,
      "Cyber Future",
      "Sleek, neon-lit, and cutting-edge.",
      "Transform this person into a futuristic cyberpunk portrait. They should be wearing sleek, modern tech-wear or metallic accents. The lighting should involve neon colors (cyan and magenta) and be dramatic.",
      "bg-cyan-100 text-cyan-600")

  const CyberpunkConfig: StyleConfig :=
    StyleConfig(
      Cyberpunk,
      "Cyberpunk",
      "High-tech, low-life aesthetic with vibrant neon lights.",
      "Transform this person into a cyberpunk character. High-tech cybernetic implants or visors (optional but stylish). The lighting is harsh neon pink, purple, and blue. Gritty but stylish atmosphere.",
      "bg-fuchsia-100 text-fuchsia-600")

  const ArtDecoConfig: StyleConfig :=
    StyleConfig(
      ArtDeco,
      "Art Deco",
      "The roaring 20s. Gold, geometric, and opulent.",
      "Transform this person into an Art Deco masterpiece portrait. The style is reminiscent of the Great Gatsby or 1920s luxury posters. Use gold, black, and geometric patterns. The person should look elegant and wealthy. Lighting is sharp and angular.",
      "bg-orange-100 text-orange-600")

  const FantasyConfig: StyleConfig :=
    StyleConfig(
      Fantasy,
      "High Fantasy",
      "Ethereal, magical, and heroic RPG style.",
      "Transform this person into a high fantasy character portrait. They could be an elf, mage, or noble. Wearing intricate robes or light armor. The lighting is magical and ethereal, with soft glows. Dreamy and epic quality.",
      "bg-emerald-100 text-emerald-600")

  const SciFiConfig: StyleConfig :=
    StyleConfig(
      SciFi,
      "Space Sci-Fi",
      "Clean, interstellar explorer aesthetic.",
      "Transform this person into a sci-fi space explorer. Wearing a clean, futuristic space fleet uniform (Star Trek style or similar). Lighting is cool white and blue. Clean, sharp, and professional future look.",
      "bg-indigo-100 text-indigo-500")

  const SteampunkConfig: StyleConfig :=
    StyleConfig(
      Steampunk,
      "Steampunk",
      "Victorian industrial with brass gears and steam.",
      "Transform this person into a steampunk character. Wearing Victorian-era clothing with brass goggles, leather gears, and mechanical accessories. Lighting is warm, brassy, and sepia-toned.",
      "bg-stone-200 text-stone-700")

  const ThreeDConfig: StyleConfig :=
    StyleConfig(
      ThreeD,
      "3D Render",
      "Cute, expressive, and high-quality 3D character style.",
      "Transform this person into a high-quality 3D character render, similar to Pixar or Dreamworks animation. Smooth textures, large expressive eyes, soft studio lighting. The character should look cute and vibrant.",
      "bg-lime-100 text-lime-600")

  const IceAgeConfig: StyleConfig :=
    StyleConfig(
      IceAge,
      "Ice Age",
      "Frozen, frosty, and cinematic winter aesthetic.",
      "Transform this person into a cinematic Ice Age themed portrait. Frost on hair and eyelashes, thick winter furs. The lighting is cold blue and crisp. Background suggests a frozen tundra or ice cave.",
      "bg-cyan-50 text-cyan-500")

  const ArtisticPaintingConfig: StyleConfig :=
    StyleConfig(
      ArtisticPainting,
      "Artistic Painting",
      "Classic oil painting aesthetic with rich textures.",
      "Transform this person into a beautiful artistic painting portrait. Oil painting style with visible brush strokes, rich colors, and artistic lighting. The texture should look like canvas.",
      "bg-orange-100 text-orange-600")

  /** `BACKGROUNDS`, in table order. `GradientLux` has no entry. */
  const Backgrounds: seq<BackgroundConfig> := [
    OriginalBackground,
    StudioGreyBackground,
    StudioWhiteBackground,
    OfficeBackground,
    CityBokehBackground,
    NewYorkBackground,
    BrickWallBackground,
    NatureBackground,
    ShipBackground,
    AirportBackground,
    BookshelfBackground,
    SolidBlueBackground,
    StudioBlackBackground,
    EiffelTowerBackground
  ]

  const OriginalBackground: BackgroundConfig :=
    BackgroundConfig(
      Original,
      "Default / Original",
      "",
      "bg-gradient-to-br from-slate-100 to-slate-200")

  const StudioGreyBackground: BackgroundConfig :=
    BackgroundConfig(
      StudioGrey,
      "Studio Grey",
      "The background must be a clean, solid professional neutral grey studio backdrop.",
      "bg-[#808080]")

  const StudioWhiteBackground: BackgroundConfig :=
    BackgroundConfig(
      StudioWhite,
      "Pure White",
      "The background must be pure white (#FFFFFF), clean and shadowless.",
      "bg-white border border-slate-200")

  const OfficeBackground: BackgroundConfig :=
    BackgroundConfig(
      Office,
      "Modern Office",
      "The background must be a blurred, bright, modern open-plan office environment with glass walls and depth of field.",
      "bg-blue-50")

  const CityBokehBackground: BackgroundConfig :=
    BackgroundConfig(
      CityBokeh,
      "City Lights",
      "The background must be a blurred night cityscape with beautiful bokeh lights.",
      "bg-slate-900")

  const NewYorkBackground: BackgroundConfig :=
    BackgroundConfig(
      NewYork,
      "New York City",
      "The background must be a blurred, iconic New York City street scene with yellow cabs or skyscrapers.",
      "bg-amber-100")

  const BrickWallBackground: BackgroundConfig :=
    BackgroundConfig(
      BrickWall,
      "Loft Brick",
      "The background must be a stylish white or distressed brick wall, loft style.",
      "bg-orange-50")

  const NatureBackground: BackgroundConfig :=
    BackgroundConfig(
      Nature,
      "Nature Blur",
      "The background must be a soft, blurred green nature background with natural lighting.",
      "bg-green-100")

  const ShipBackground: BackgroundConfig :=
    BackgroundConfig(
      Ship,
      "Luxury Yacht",
      "The background must be a sunny deck of a luxury cruise ship or yacht with blue ocean behind.",
      "bg-cyan-100")

  const AirportBackground: BackgroundConfig :=
    BackgroundConfig(
      Airport,
      "Airport Lounge",
      "The background must be a modern, clean airport terminal or first-class lounge with large windows.",
      "bg-sky-50")

  const BookshelfBackground: BackgroundConfig :=
    BackgroundConfig(
      Bookshelf,
      "Library / Books",
      "The background must be a blurred library or bookshelf, suggesting intelligence and academia.",
      "bg-amber-900")

  const SolidBlueBackground: BackgroundConfig :=
    BackgroundConfig(
      SolidBlue,
      "Corporate Blue",
      "The background must be a solid, deep corporate blue.",
      "bg-blue-800")

  const StudioBlackBackground: BackgroundConfig :=
    BackgroundConfig(
      StudioBlack,
      "Studio Black",
      "The background must be a solid, pitch black studio backdrop for dramatic contrast.",
      "bg-black")

  const EiffelTowerBackground: BackgroundConfig :=
    BackgroundConfig(
      EiffelTower,
      "Eiffel Tower",
      "The background must be a blurred, romantic view of the Eiffel Tower in Paris with soft daylight.",
      "bg-sky-100")

  /** The index of the first entry of `bs` whose id is `id`, if any. */
  function FirstBackgroundIndex(bs: seq<BackgroundConfig>, id: BackgroundId): (r: Option<nat>)
    ensures r.Some? ==> r.value < |bs| && bs[r.value].id == id
    ensures r.Some? ==> forall j :: 0 <= j < r.value ==> bs[j].id != id
    ensures r.None? ==> forall j :: 0 <= j < |bs| ==> bs[j].id != id
  {
    if |bs| == 0 then None
    else if bs[0].id == id then Some(0)
    else match FirstBackgroundIndex(bs[1..], id)
      case None => None
      case Some(k) => Some(k + 1)
  }

  /** `BACKGROUNDS.find(b => b.id === id)`. */
  function FindBackground(id: BackgroundId): (r: Option<BackgroundConfig>)
    ensures r.Some? ==> r.value in Backgrounds && r.value.id == id
    ensures r.None? ==> forall b :: b in Backgrounds ==> b.id != id
  {
    match FirstBackgroundIndex(Backgrounds, id)
    case None => None
    case Some(k) => Some(Backgrounds[k])
  }

  lemma BackgroundIdsDistinct()
    ensures forall i, j :: 0 <= i < j < |Backgrounds| ==> Backgrounds[i].id != Backgrounds[j].id
  {
  }

  /** `Original` is the first entry and its prompt modifier is empty. */
  lemma OriginalBackgroundIsEmpty()
    ensures FindBackground(Original) == Some(Backgrounds[0])
    ensures Backgrounds[0].promptModifier == ""
  {
  }

  /** `GradientLux` is an id without an entry. */
  lemma GradientLuxIsMissing()
    ensures FindBackground(GradientLux) == None
  {
  }

  /** Every other id has an entry. */
  lemma OtherBackgroundsAreListed(id: BackgroundId)
    requires id != GradientLux
    ensures FindBackground(id).Some?
  {
    match id
    case Original => assert Backgrounds[0].id == id;
    case StudioGrey => assert Backgrounds[1].id == id;
    case StudioWhite => assert Backgrounds[2].id == id;
    case Office => assert Backgrounds[3].id == id;
    case CityBokeh => assert Backgrounds[4].id == id;
    case NewYork => assert Backgrounds[5].id == id;
    case BrickWall => assert Backgrounds[6].id == id;
    case Nature => assert Backgrounds[7].id == id;
    case Ship => assert Backgrounds[8].id == id;
    case Airport => assert Backgrounds[9].id == id;
    case Bookshelf => assert Backgrounds[10].id == id;
    case SolidBlue => assert Backgrounds[11].id == id;
    case StudioBlack => assert Backgrounds[12].id == id;
    case EiffelTower => assert Backgrounds[13].id == id;
  }

  /** Every listed background other than `Original` has a non-empty modifier. */
  lemma ListedBackgroundsHaveModifiers(id: BackgroundId)
    requires id != Original && FindBackground(id).Some?
    ensures FindBackground(id).value.promptModifier != ""
  {
  }
}
