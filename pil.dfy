/** PIL images, which the adapters only pass around: all they look at is the detected format name. */
module Pil {
  import opened Wrappers

  /** A decoded image: PIL's detected format name, which may be None. */
  datatype PilImage = PilImage(format: Option<string>)

  /** The keyword arguments of `Image.save`: the format, `optimize`, and `quality` when given. */
  datatype SaveOptions = SaveOptions(format: string, optimize: bool, quality: Option<nat>)
}
