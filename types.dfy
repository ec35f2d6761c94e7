/** Shared vocabulary of the application: the size and scene enumerations and
    the breed analysis record, plus a small Option wrapper for the places where
    the source uses `null` or `undefined`. */
module Types {

  datatype Option<+T> = None | Some(value: T) {
    function GetOr(default: T): T {
      match this
      case Some(v) => v
      case None => default
    }
  }

  /** Size category of a dog; UNKNOWN is never produced by the classifier. */
  datatype DogSize = SMALL | MEDIUM | LARGE | UNKNOWN

  /** The scene the user picks; drives the owner-feet assets only. */
  datatype SceneType = INDOOR | CASUAL | SPORT | FANCY

  /** The string value each scene enum member carries at run time. */
  function SceneName(s: SceneType): (name: string)
    ensures name != ""
  {
    match s
    case INDOOR => "INDOOR"
    case CASUAL => "CASUAL"
    case SPORT => "SPORT"
    case FANCY => "FANCY"
  }

  /** Result of classifying a breed. Heights are JavaScript numbers, modelled
      as reals. */
  datatype BreedAnalysis = BreedAnalysis(size: DogSize, reasoning: string, typicalHeightCm: real)

  /** A file picked by the user: its name and its MIME type (`File.type`). */
  datatype MediaFile = MediaFile(name: string, mimeType: string)
}
