/** The page's own logic: the slider settings and their update, the
    dimensions stored for an uploaded image, and the name given to the
    downloaded PNG. */
module Page {
  import opened Types
  import opened JsString
  import ImageGenerator
  import RenderPng

  /** `MAX_WIDTH`: the display clamp of the preview and of the export, and
      the width non-PNG uploads are reduced to. */
  const MaxWidth: real := 400.0

  // ---------------------------------------------------------------------
  // Settings

  /** The four sliders. */
  datatype Field = Padding | Shadow | Radius | Size

  /** A range input: its bounds and its step. */
  datatype Slider = Slider(min: int, max: int, step: nat)

  /** The `fields` table, with the step every slider but `size` gets by
      default (`field.step ?? 5`). The values are what matter: `Allowed` and
      `DefaultSettings` read them; the contract only records that every
      range is non-empty and every step positive. */
  function SliderOf(f: Field): (sl: Slider)
    ensures sl.min < sl.max && sl.step > 0
  {
    match f
    case Padding => Slider(0, 99, 5)
    case Shadow => Slider(0, 99, 5)
    case Radius => Slider(0, 99, 5)
    case Size => Slider(10, 100, 2)
  }

  /** A value the slider for `f` can produce: within its bounds and on its
      step grid. */
  predicate Allowed(f: Field, v: real) {
    var sl := SliderOf(f);
    && sl.min as real <= v <= sl.max as real
    && v == v.Floor as real
    && (v.Floor - sl.min) % sl.step == 0
  }

  /** `param[field.name]`. */
  function Get(s: Settings, f: Field): real {
    match f
    case Padding => s.padding
    case Shadow => s.shadow
    case Radius => s.radius
    case Size => s.size
  }

  /** Every field holds a value its slider can produce. */
  predicate SettingsAllowed(s: Settings) {
    forall f :: Allowed(f, Get(s, f))
  }

  /** The initial `param` state: padding 10, radius 5, shadow 15, size 100. */
  function DefaultSettings(): (s: Settings)
    ensures SettingsAllowed(s)
    ensures Get(s, Padding) == 10.0 && Get(s, Radius) == 5.0 && Get(s, Shadow) == 15.0 && Get(s, Size) == 100.0
  {
    var s := Settings(10.0, 15.0, 5.0, 100.0);
    assert Allowed(Padding, 10.0) && Allowed(Shadow, 15.0) && Allowed(Radius, 5.0) && Allowed(Size, 100.0);
    s
  }

  /** A slider's `onChange`: `{ ...param, [field.name]: value }` sets the
      named field to the new number and leaves the other three alone. */
  function WithField(s: Settings, f: Field, v: real): (r: Settings)
    ensures Get(r, f) == v
    ensures forall g :: g != f ==> Get(r, g) == Get(s, g)
  {
    match f
    case Padding => s.(padding := v)
    case Shadow => s.(shadow := v)
    case Radius => s.(radius := v)
    case Size => s.(size := v)
  }

  /** Moving a slider keeps every field within what the sliders produce. */
  lemma SliderKeepsAllowed(s: Settings, f: Field, v: real)
    requires SettingsAllowed(s) && Allowed(f, v)
    ensures SettingsAllowed(WithField(s, f, v))
  {
    forall g ensures Allowed(g, Get(WithField(s, f, v), g)) {
      if g != f {
        assert Allowed(g, Get(s, g));
      }
    }
  }

  /** Settings the sliders produce keep the shown image within the clamp
      and non-negative. */
  lemma AllowedSettingsStayInClamp(image: ImageInfo, s: Settings)
    requires SettingsAllowed(s) && image.src != "" && image.width > 0.0
    ensures var n := ImageGenerator.Scene(Some(image), s, Some(MaxWidth));
      && n.Container?
      && 0.0 <= n.img.width <= ImageGenerator.Min(image.width, MaxWidth)
      && n.width <= ImageGenerator.Min(image.width, MaxWidth) + 2.0 * s.padding
  {
    assert Allowed(Size, Get(s, Size)) && Allowed(Padding, Get(s, Padding));
    ImageGenerator.ContainerBound(image, s, MaxWidth);
  }

  // ---------------------------------------------------------------------
  // Upload

  /** The file the user picked: its name and its MIME type. */
  datatype PickedFile = PickedFile(name: string, mimeType: string)

  /** `file.type.includes("png")`. */
  predicate IsPng(file: PickedFile) {
    Includes(file.mimeType, "png")
  }

  datatype Dims = Dims(width: real, height: real)

  /** The size a non-PNG image is redrawn at: the width capped at
      `MAX_WIDTH` and the height following the aspect ratio. */
  function Downscaled(width: real, height: real): (d: Dims)
    requires width > 0.0 && height > 0.0
    ensures d.width == ImageGenerator.Min(width, MaxWidth)
    ensures d.width <= MaxWidth
    ensures d.height > 0.0
    ensures d.width * height == d.height * width
    ensures width <= MaxWidth ==> d == Dims(width, height)
  {
    var ratio := width / height;
    var newWidth := if width > MaxWidth then MaxWidth else width;
    var newHeight := newWidth / ratio;
    assert newHeight * ratio == newWidth;
    assert newHeight * width == newWidth * height by {
      assert ratio * height == width;
      calc {
        newHeight * width;
        newHeight * (ratio * height);
        (newHeight * ratio) * height;
        newWidth * height;
      }
    }
    Dims(newWidth, newHeight)
  }

  /** The image `uploadFile` stores, or `None` when it stores nothing: no
      file was picked, or the canvas produced no blob. `dataUrl` is what the
      file reader produced, `blobUrl` the URL of the re-encoded PNG. */
  function UploadedImage(file: Option<PickedFile>, dataUrl: string, imgWidth: nat, imgHeight: nat,
                         blobUrl: Option<string>): (r: Option<ImageInfo>)
    requires imgWidth > 0 && imgHeight > 0
    ensures file.None? ==> r.None?
    ensures file.Some? && IsPng(file.value) ==>
      r == Some(ImageInfo(file.value.name, dataUrl, imgWidth as real, imgHeight as real))
    ensures file.Some? && !IsPng(file.value) ==> (r.Some? <==> blobUrl.Some?)
    ensures file.Some? && !IsPng(file.value) && r.Some? ==>
      && r.value.name == file.value.name
      && r.value.src == blobUrl.value
      && r.value.width == ImageGenerator.Min(imgWidth as real, MaxWidth)
      && r.value.width <= MaxWidth
      && r.value.width * (imgHeight as real) == r.value.height * (imgWidth as real)
  {
    if file.None? then None
    else if IsPng(file.value) then
      Some(ImageInfo(file.value.name, dataUrl, imgWidth as real, imgHeight as real))
    else if blobUrl.None? then None
    else
      var d := Downscaled(imgWidth as real, imgHeight as real);
      Some(ImageInfo(file.value.name, blobUrl.value, d.width, d.height))
  }

  // ---------------------------------------------------------------------
  // Download name

  /** A '.' in the lower-cased name stands exactly where it stood in the name. */
  lemma LowerDots(name: string, i: int)
    requires 0 <= i < |name|
    ensures ToLowerCase(name)[i] == '.' <==> name[i] == '.'
  {
    LowerKeepsChar(name, i, '.');
  }

  /** A name without a '.' has neither a '.' nor a ".jpg" once lower-cased. */
  lemma NoDotInLower(name: string)
    requires '.' !in name
    ensures forall i :: !OccursAt(ToLowerCase(name), ".", i)
    ensures forall i :: !OccursAt(ToLowerCase(name), ".jpg", i)
  {
    var low := ToLowerCase(name);
    forall i ensures !OccursAt(low, ".", i) && !OccursAt(low, ".jpg", i) {
      OccursAtChar(low, '.', i);
      if 0 <= i < |low| { LowerDots(name, i); }
      if OccursAt(low, ".jpg", i) { OccursAtIndex(low, ".jpg", i, 0); }
    }
  }

  /** A name with a '.' has a first '.' once lower-cased. */
  lemma FirstDotInLower(name: string) returns (d: nat)
    requires '.' in name
    ensures IsFirst(ToLowerCase(name), ".", d)
  {
    var low := ToLowerCase(name);
    var i :| 0 <= i < |name| && name[i] == '.';
    LowerDots(name, i);
    OccursAtChar(low, '.', i);
    d := IndexOf(low, ".").value;
  }

  /** Replacing the first ".jpg" by ".png" keeps the first '.' where it was. */
  lemma JpgStepKeepsFirstDot(low: string, d: int, j: int)
    requires IsFirst(low, ".", d) && IsFirst(low, ".jpg", j)
    ensures d <= j
    ensures IsFirst(low[..j] + ".png" + low[j + 4..], ".", d)
    ensures (low[..j] + ".png" + low[j + 4..])[..d] == low[..d]
  {
    var step := low[..j] + ".png" + low[j + 4..];
    OccursAtIndex(low, ".jpg", j, 0);
    OccursAtChar(low, '.', j);
    OccursAtChar(low, '.', d);
    assert step[j] == '.';
    OccursAtChar(step, '.', d);
    forall k | 0 <= k < d ensures !OccursAt(step, ".", k) {
      OccursAtChar(low, '.', k);
      OccursAtChar(step, '.', k);
    }
  }

  /** The download name of an already lower-cased name, as one splice at its
      first '.': the dot becomes "-elevation.", and what follows it is taken
      from the name with its first ".jpg" made ".png". Without a '.' the name
      is kept. */
  function Elevated(low: string): string {
    match IndexOf(low, ".")
    case None => low
    case Some(d) =>
      var png := match IndexOf(low, ".jpg")
                 case None => low
                 case Some(j) => low[..j] + ".png" + low[j + 4..];
      low[..d] + "-elevation." + png[d + 1..]
  }

  /** The name `handleDownload` gives the downloaded file. */
  function ElevationName(name: string): string {
    Elevated(ToLowerCase(name))
  }

  /** A name with a '.' grows by the ten characters of "-elevation"; a name
      without one keeps its length. */
  lemma ElevationNameLength(name: string)
    ensures |ElevationName(name)| == |name| + (if '.' in name then 10 else 0)
  {
    if '.' in name {
      var d := FirstDotInLower(name);
    } else {
      NoDotInLower(name);
    }
  }

  /** A name without a '.' is only lower-cased. */
  lemma ElevationNameWithoutDot(name: string)
    requires '.' !in name
    ensures ElevationName(name) == ToLowerCase(name)
  {
    NoDotInLower(name);
  }

  /** The download name has no upper-case letter. */
  lemma ElevatedIsLowerCase(low: string)
    requires NoUpper(low)
    ensures NoUpper(Elevated(low))
  {
    match IndexOf(low, ".")
    case None =>
    case Some(d) =>
      var png := match IndexOf(low, ".jpg")
                 case None => low
                 case Some(j) => low[..j] + ".png" + low[j + 4..];
      assert png == Replace(low, ".jpg", ".png");
      ReplaceKeepsNoUpper(low, ".jpg", ".png");
      assert low[..d] == low[..d][0..d];
      NoUpperSplice(low[..d], "-elevation.", png, d + 1, |png|);
      assert png[d + 1..|png|] == png[d + 1..];
  }

  lemma ElevationNameIsLowerCase(name: string)
    ensures NoUpper(ElevationName(name))
  {
    ElevatedIsLowerCase(ToLowerCase(name));
  }

  /** Only the first '.' is spliced: with the first '.' at `d` and the first
      ".jpg" at `j` (never before `d`), the name is the lower-cased prefix,
      "-elevation.", and the rest with that ".jpg" made ".png"; without a
      ".jpg" the rest is kept as it is. */
  lemma ElevationNameAtFirstDot(name: string, d: int)
    requires IsFirst(ToLowerCase(name), ".", d)
    ensures var low := ToLowerCase(name);
      && (!Includes(low, ".jpg") ==> ElevationName(name) == low[..d] + "-elevation." + low[d + 1..])
      && (forall j :: IsFirst(low, ".jpg", j) ==>
            && d <= j
            && ElevationName(name) == low[..d] + "-elevation." + (low[..j] + ".png" + low[j + 4..])[d + 1..])
  {
    var low := ToLowerCase(name);
    var d' := IndexOf(low, ".").value;
    FirstIsUnique(low, ".", d, d');
    forall j | IsFirst(low, ".jpg", j) ensures d <= j {
      JpgStepKeepsFirstDot(low, d, j);
    }
  }

  lemma LowerCaseExamples()
    ensures ToLowerCase("photo.jpg") == "photo.jpg"
    ensures ToLowerCase("art.png") == "art.png"
    ensures ToLowerCase("Photo.JPG") == "photo.jpg"
    ensures ToLowerCase("README") == "readme"
  {
  }

  lemma PhotoJpgIndexes()
    ensures IndexOf("photo.jpg", ".") == Some(5) && IndexOf("photo.jpg", ".jpg") == Some(5)
  {
    var s := "photo.jpg";
    PhotoJpg(s);
    FirstIsUnique(s, ".", 5, IndexOf(s, ".").value);
    FirstIsUnique(s, ".jpg", 5, IndexOf(s, ".jpg").value);
  }

  lemma ElevatedPhotoJpg()
    ensures Elevated("photo.jpg") == "photo-elevation.png"
  {
    var s := "photo.jpg";
    PhotoJpgIndexes();
    var png := s[..5] + ".png" + s[9..];
    assert png == "photo.png";
    assert Elevated(s) == s[..5] + "-elevation." + png[6..];
    assert s[..5] == "photo" && png[6..] == "png";
  }

  lemma ElevatedArtPng()
    ensures Elevated("art.png") == "art-elevation.png"
  {
    var s := "art.png";
    ArtPng(s);
    FirstIsUnique(s, ".", 3, IndexOf(s, ".").value);
  }

  /** The examples the page is built for: "photo.jpg" and "art.png", and
      names in capitals. */
  lemma ElevationNameExamples()
    ensures ElevationName("photo.jpg") == "photo-elevation.png"
    ensures ElevationName("art.png") == "art-elevation.png"
    ensures ElevationName("Photo.JPG") == "photo-elevation.png"
    ensures ElevationName("README") == "readme"
  {
    LowerCaseExamples();
    ElevatedPhotoJpg();
    ElevatedArtPng();
    ElevationNameWithoutDot("README");
  }

  /** The two `replace` calls of `handleDownload` build exactly `Elevated`. */
  lemma ReplacesBuildElevated(low: string)
    ensures Replace(if Includes(low, ".jpg") then Replace(low, ".jpg", ".png") else low, ".", "-elevation.")
         == Elevated(low)
  {
    var step := if Includes(low, ".jpg") then Replace(low, ".jpg", ".png") else low;
    match IndexOf(low, ".")
    case None =>
      forall i ensures !OccursAt(low, ".jpg", i) {
        if OccursAt(low, ".jpg", i) { OccursAtIndex(low, ".jpg", i, 0); OccursAtChar(low, '.', i); }
      }
      assert step == low;
    case Some(d) =>
      match IndexOf(low, ".jpg")
      case None =>
        assert step == low;
      case Some(j) =>
        JpgStepKeepsFirstDot(low, d, j);
        assert step == low[..j] + ".png" + low[j + 4..];
  }

  /** `handleDownload`'s file name, built step by step as the page does:
      lower-case the name, turn its first ".jpg" into ".png", then its first
      '.' into "-elevation.". */
  method DownloadName(name: string) returns (imageName: string)
    ensures imageName == ElevationName(name)
  {
    imageName := ToLowerCase(name);
    if Includes(imageName, ".jpg") {
      imageName := Replace(imageName, ".jpg", ".png");
    }
    imageName := Replace(imageName, ".", "-elevation.");
    ReplacesBuildElevated(ToLowerCase(name));
  }

  /** "photo.jpg": its first '.' starts its first ".jpg". */
  lemma PhotoJpg(s: string)
    requires s == "photo.jpg"
    ensures IsFirst(s, ".", 5) && IsFirst(s, ".jpg", 5)
  {
    assert s[5..9] == ".jpg";
    OccursAtChar(s, '.', 5);
    forall k | 0 <= k < 5 ensures !OccursAt(s, ".", k) && !OccursAt(s, ".jpg", k) {
      OccursAtChar(s, '.', k);
      if OccursAt(s, ".jpg", k) { OccursAtIndex(s, ".jpg", k, 0); }
    }
  }

  /** "art.png": its first '.' is at 3 and it holds no ".jpg". */
  lemma ArtPng(s: string)
    requires s == "art.png"
    ensures IsFirst(s, ".", 3) && !Includes(s, ".jpg")
  {
    OccursAtChar(s, '.', 3);
    forall k | 0 <= k < 3 ensures !OccursAt(s, ".", k) {
      OccursAtChar(s, '.', k);
    }
    forall k ensures !OccursAt(s, ".jpg", k) {
      if OccursAt(s, ".jpg", k) {
        OccursAtIndex(s, ".jpg", k, 1);
      }
    }
  }

  // ---------------------------------------------------------------------
  // Preview and export

  /** The preview (`ImageGenerator` with the page's settings) and the export
      (`renderPNG` with the same settings) show the image equally wide, but
      the export's padding, shadow and radius are those of the preview scaled
      by the native width over 400. At a native width of 400 the two agree. */
  lemma ExportVersusPreview(image: ImageInfo, settings: Settings)
    requires image.src != "" && image.width > 0.0
    ensures var preview := ImageGenerator.Scene(Some(image), settings, Some(MaxWidth));
            var exported := RenderPng.Render(image, settings, Some(MaxWidth)).scene;
      && preview.Container? && exported.Container?
      && exported.img.width == preview.img.width
      && exported.padding * RenderPng.CanvasSize == preview.padding * image.width
      && exported.img.shadow * RenderPng.CanvasSize == preview.img.shadow * image.width
      && exported.img.radius * RenderPng.CanvasSize == preview.img.radius * image.width
      && (image.width == RenderPng.CanvasSize ==> exported == preview)
  {
  }
}
