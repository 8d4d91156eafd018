/** The record types of the pin board (types.ts). */
module PinTypes {

  /** A value or nothing; the shell's `Pin | null` fields. */
  datatype Option<T> = None | Some(value: T)

  /** A feed entry: an image with the prompt that describes it and its intrinsic size. */
  datatype Pin = Pin(id: string, imageUrl: string, prompt: string, width: int, height: int)

  /** The two screens of the shell: the home feed and the user's profile. */
  datatype View = Home | Profile

  /** '1:1' | '9:16' | '16:9' */
  datatype AspectRatio = Square | Portrait | Landscape

  /** The two generation back ends. */
  datatype GenerationModel = GeminiFlashImage | Imagen4

  /** The fixed style vocabulary (STYLES). */
  datatype Style =
    | Photorealistic | Illustration | Anime | FantasyArt
    | Cinematic | Render3D | Minimalist | Watercolor

  /** What the generator form submits for a generated pin; `baseImage` is set for a remix. */
  datatype GenerationOptions = GenerationOptions(
    prompt: string,
    model: GenerationModel,
    aspectRatio: AspectRatio,
    style: Option<Style>,
    baseImage: Option<string>)

  /** What the generator form submits for an uploaded image: a pin without its id. */
  datatype UploadedPinData = UploadedPinData(imageUrl: string, prompt: string, width: int, height: int)

  /** No two pins of the sequence share an id (the feed's uniqueness invariant). */
  ghost predicate DistinctIds(pins: seq<Pin>) {
    forall i, j :: 0 <= i < j < |pins| ==> pins[i].id != pins[j].id
  }
}
