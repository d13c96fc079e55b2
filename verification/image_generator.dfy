/** The `ImageGenerator` component as a value: either the "upload an image
    first" warning, or a container box holding a single image whose width is
    the native width clamped to `maxWidth` and scaled by the `size`
    percentage. */
module ImageGenerator {
  import opened Types

  /** `maxWidth` when the caller passes none. */
  const DefaultMaxWidth: real := 800.0
  /** The container's fixed CSS `maxWidth`. */
  const ContainerMaxWidth: real := 400.0

  /** The `<img>` node: its URL, width, box-shadow blur, border radius. */
  datatype Img = Img(src: string, width: real, shadow: real, radius: real)

  /** The rendered tree. `Warning` is the alert glyph with its text. */
  datatype Node =
    | Warning
    | Container(padding: real, width: real, maxWidth: real, img: Img)

  /** The component has something to show: an image object with a truthy `src`. */
  predicate HasSource(image: Option<ImageInfo>) {
    image.Some? && image.value.src != ""
  }

  function Min(a: real, b: real): real {
    if a <= b then a else b
  }

  function MaxWidthOrDefault(maxWidth: Option<real>): real {
    if maxWidth.Some? then maxWidth.value else DefaultMaxWidth
  }

  /** `coef`: the factor that takes the native width to the clamped width and
      then to `size` percent of it. */
  function Coef(width: real, maxWidth: real, size: real): (c: real)
    requires width > 0.0
    ensures c * width == Min(width, maxWidth) * size / 100.0
  {
    var shrink := if width > maxWidth then maxWidth / width else 1.0;
    assert shrink * width == Min(width, maxWidth);
    shrink * size / 100.0
  }

  /** `imageWidth`: the displayed width of the image. */
  function ImageWidth(width: real, maxWidth: real, size: real): (w: real)
    requires width > 0.0
    ensures w == Min(width, maxWidth) * size / 100.0
    ensures 0.0 <= size <= 100.0 && 0.0 <= maxWidth ==> 0.0 <= w <= Min(width, maxWidth)
  {
    width * Coef(width, maxWidth, size)
  }

  /** The component itself. Settings are used as given: nothing is clamped. */
  function Scene(image: Option<ImageInfo>, settings: Settings, maxWidth: Option<real>): (n: Node)
    requires HasSource(image) ==> image.value.width > 0.0
    ensures n.Warning? <==> !HasSource(image)
    ensures n.Container? ==>
      && n.img.src == image.value.src
      && n.img.width == Min(image.value.width, MaxWidthOrDefault(maxWidth)) * settings.size / 100.0
      && n.padding == settings.padding
      && n.width == n.img.width + 2.0 * settings.padding
      && n.maxWidth == ContainerMaxWidth
      && n.img.shadow == settings.shadow
      && n.img.radius == settings.radius
  {
    if !HasSource(image) then Warning
    else
      var imageWidth := ImageWidth(image.value.width, MaxWidthOrDefault(maxWidth), settings.size);
      Container(settings.padding, imageWidth + 2.0 * settings.padding, ContainerMaxWidth,
                Img(image.value.src, imageWidth, settings.shadow, settings.radius))
  }

  /** Without an image, or with a falsy `src`, the result is the warning
      whatever the settings and the maximum width. */
  lemma WarningIgnoresSettings(image: Option<ImageInfo>, s1: Settings, s2: Settings,
                               m1: Option<real>, m2: Option<real>)
    requires !HasSource(image)
    ensures Scene(image, s1, m1) == Scene(image, s2, m2) == Warning
  {
  }

  /** Leaving `maxWidth` out is the same as passing 800. */
  lemma MaxWidthDefaultsTo800(image: Option<ImageInfo>, settings: Settings)
    requires HasSource(image) ==> image.value.width > 0.0
    ensures Scene(image, settings, None) == Scene(image, settings, Some(800.0))
  {
  }

  /** An image no wider than `maxWidth` is shown at `size` percent of its own width. */
  lemma UnclampedWidth(width: real, maxWidth: real, size: real)
    requires 0.0 < width <= maxWidth
    ensures ImageWidth(width, maxWidth, size) == width * size / 100.0
  {
  }

  /** Above the clamp the displayed width no longer depends on the native
      width: two images wider than `maxWidth` are shown equally wide. */
  lemma ClampedWidthIgnoresNative(w1: real, w2: real, maxWidth: real, size: real)
    requires w1 > maxWidth && w2 > maxWidth && w1 > 0.0 && w2 > 0.0
    ensures ImageWidth(w1, maxWidth, size) == ImageWidth(w2, maxWidth, size) == maxWidth * size / 100.0
  {
  }

  /** With non-negative padding and a size of at most 100 percent, the
      container is never wider than the clamped image plus its padding on
      both sides, and the image never wider than the clamp. */
  lemma ContainerBound(image: ImageInfo, settings: Settings, maxWidth: real)
    requires image.src != "" && image.width > 0.0 && 0.0 <= maxWidth
    requires 0.0 <= settings.size <= 100.0 && 0.0 <= settings.padding
    ensures var n := Scene(Some(image), settings, Some(maxWidth));
      && n.Container?
      && 0.0 <= n.img.width <= Min(image.width, maxWidth)
      && n.width <= Min(image.width, maxWidth) + 2.0 * settings.padding
  {
  }
}
