/** The records and enumerations of the headshot application (types.ts). */
module Types {

  datatype Option<+T> = None | Some(value: T)

  datatype Result<+T, +E> = Ok(value: T) | Err(error: E)

  /** The eighteen headshot styles, in their declaration order. */
  datatype HeadshotStyle =
    | Corporate | Creative | Executive | Sexy | Sensual | Meditation
    | Glamorous | Vintage | Futuristic | Erotic | Cyberpunk | ArtDeco
    | Fantasy | SciFi | Steampunk | ThreeD | IceAge | ArtisticPainting

  /** `Object.values(HeadshotStyle)`: every style, in declaration order. */
  const AllStyles: seq<HeadshotStyle> := [
    Corporate, Creative, Executive, Sexy, Sensual, Meditation,
    Glamorous, Vintage, Futuristic, Erotic, Cyberpunk, ArtDeco,
    Fantasy, SciFi, Steampunk, ThreeD, IceAge, ArtisticPainting
  ]

  datatype BackgroundId =
    | Original | Office | StudioGrey | StudioWhite | StudioBlack | BrickWall
    | CityBokeh | Nature | Bookshelf | SolidBlue | GradientLux | EiffelTower
    | NewYork | Ship | Airport

  datatype StyleConfig = StyleConfig(
    id: HeadshotStyle,
    title: string,
    description: string,
    promptModifier: string,
    iconColor: string)

  datatype BackgroundConfig = BackgroundConfig(
    id: BackgroundId,
    labelText: string,
    promptModifier: string,
    previewColor: string)

  /** The page's generation record; `None` stands for the source's `null`. */
  datatype GenerationState = GenerationState(
    originalImage: Option<string>,
    generatedImage: Option<string>,
    generatedVideo: Option<string>,
    isGenerating: bool,
    error: Option<string>)

  /** A history entry; `id` is absent until the project store assigns a key. */
  datatype Project = Project(
    id: Option<nat>,
    timestamp: int,
    style: HeadshotStyle,
    originalImage: string,
    generatedImage: string,
    generatedVideo: Option<string>)

  /** A saved style mix; the order of `styles` is the order the prompt uses. */
  datatype CustomPreset = CustomPreset(
    id: string,
    name: string,
    styles: seq<HeadshotStyle>,
    createdAt: int)

  /** The optional `isAdmin` and `subscriptionExpiry` fields may be absent. */
  datatype UserProfile = UserProfile(
    id: string,
    credits: int,
    isSubscribed: bool,
    isAdmin: Option<bool>,
    subscriptionExpiry: Option<int>)

  /** JavaScript truthiness of an optional boolean (`undefined` is falsy). */
  predicate Truthy(b: Option<bool>) {
    b == Some(true)
  }

  /** JavaScript truthiness of an optional string (`null` and `""` are falsy). */
  predicate Present(s: Option<string>) {
    s.Some? && s.value != ""
  }

  /** The position of a style in the enum's declaration order. */
  function Ordinal(s: HeadshotStyle): (n: nat)
    ensures n < |AllStyles| && AllStyles[n] == s
  {
    match s
    case Corporate => 0
    case Creative => 1
    case Executive => 2
    case Sexy => 3
    case Sensual => 4
    case Meditation => 5
    case Glamorous => 6
    case Vintage => 7
    case Futuristic => 8
    case Erotic => 9
    case Cyberpunk => 10
    case ArtDeco => 11
    case Fantasy => 12
    case SciFi => 13
    case Steampunk => 14
    case ThreeD => 15
    case IceAge => 16
    case ArtisticPainting => 17
  }

  /** The list holds every style. */
  lemma AllStylesComplete(s: HeadshotStyle)
    ensures s in AllStyles
  {
    assert AllStyles[Ordinal(s)] == s;
  }

  /** Each listed style sits at its own ordinal, so the list repeats none. */
  lemma OrdinalOfListed(i: nat)
    requires i < |AllStyles|
    ensures Ordinal(AllStyles[i]) == i
  {
  }
}
