/** Values shared by the page, the scene describer and the exporter. */
module Types {

  /** A JavaScript value that may be `undefined`. */
  datatype Option<+T> = None | Some(value: T)

  /** An uploaded image: its file name, an image URL (a data URL or a blob URL)
      and its dimensions in pixels. The page's initial `{}` image has no
      `src`; here that is the empty string, which is just as falsy. That it
      also has no `name`, `width` or `height` is not represented. */
  datatype ImageInfo = ImageInfo(name: string, src: string, width: real, height: real)

  /** The four slider values. JavaScript numbers are modelled as exact reals. */
  datatype Settings = Settings(padding: real, shadow: real, radius: real, size: real)
}
