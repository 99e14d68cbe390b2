/** app_4.py: the scale-rotate-translate variant. The whole photo is stretched to the
    frame's size, rotated with an expanded bounding box, scaled by a user factor with
    truncation, and pasted through its own alpha channel at a centred position shifted by
    user offsets; the frame is painted over it. */
module ExtendedApp {
  import opened Python
  import opened Pillow
  import opened Frames
  import opened Web

  const UPLOAD_FOLDER: string := "static/uploads/"
  const RESULT_FOLDER: string := "static/result/"
  const FRAME_FOLDER: string := "static/frames/"
  const FRAME_SUFFIXES: seq<string> := ["png", "jpg", "jpeg"]
  /** `os.path.join(RESULT_FOLDER, 'result_image.jpg')`. */
  const RESULT_PATH: string := "static/result/result_image.jpg"

  const MISSING_INPUT: string := "Profile picture and a frame are required"
  const EMPTY_FILENAME: string := "Profile picture file name cannot be empty"
  const PROCESSING_FAILED: string := "Error processing image"
  const PROFILE_NOT_FOUND: string := "Profile picture file not found: "
  const FRAME_NOT_FOUND: string := "Frame file not found: "

  /** `int(d * scale)`: one side of the scaled photo. A non-negative scale gives the
      largest whole number of pixels not exceeding the exact product. */
  function ScaledDim(d: nat, scale: real): (r: int)
    ensures 0.0 <= scale ==> 0 <= r && r as real <= d as real * scale < r as real + 1.0
    ensures scale < 0.0 && d > 0 ==> r <= 0
  {
    Trunc(d as real * scale)
  }

  /** A scale of one keeps the size. */
  lemma ScaleOneKeepsSize(d: nat)
    ensures ScaledDim(d, 1.0) == d
  {
  }

  /** A scale of zero asks for an empty photo, which the resize step rejects unless the
      photo is already empty: there is no dimension check of its own, so the request
      fails in the generic error branch. */
  lemma ScaleZeroRejected(im: Image)
    requires im.width > 0 || im.height > 0
    ensures ScaledDim(im.width, 0.0) == 0 && ScaledDim(im.height, 0.0) == 0
    ensures Resize(im, ScaledDim(im.width, 0.0), ScaledDim(im.height, 0.0)).Raised?
    ensures Resize(im, ScaledDim(im.width, 0.0), ScaledDim(im.height, 0.0)).error.ValueError?
  {
  }

  /** `int((canvas - photo) / 2 + offset)`: one coordinate of the photo's upper-left corner.
      True division gives the exact half, and `int()` truncates toward zero. */
  function Position(canvas: nat, photo: nat, offset: real): (p: int)
    ensures var v := (canvas - photo) as real / 2.0 + offset;
      if 0.0 <= v then p as real <= v < p as real + 1.0 else p as real - 1.0 < v <= p as real
  {
    Trunc((canvas - photo) as real / 2.0 + offset)
  }

  /** With an even difference and a whole offset the photo is centred exactly and then
      moved by the offset. */
  lemma PositionCentred(canvas: nat, photo: nat, offset: int)
    requires (canvas - photo) % 2 == 0
    ensures Position(canvas, photo, offset as real) == (canvas - photo) / 2 + offset
  {
  }

  /** The position is the floor of the exact value except when that value is negative and
      not whole, where it is one more. */
  lemma PositionVersusFloor(canvas: nat, photo: nat, offset: real)
    ensures var v := (canvas - photo) as real / 2.0 + offset;
      Position(canvas, photo, offset) == if 0.0 <= v || v.Floor as real == v then v.Floor else v.Floor + 1
  {
  }

  /** A photo one pixel wider than the canvas, with no offset, is placed at 0, where a
      floor would have placed it at -1. */
  lemma PositionTruncatesNotFloors(canvas: nat)
    ensures Position(canvas, canvas + 1, 0.0) == 0
    ensures ((canvas - (canvas + 1)) as real / 2.0 + 0.0).Floor == -1
  {
  }

  /** Neither the offsets nor the scale are bounded: on a 100 x 100 frame, an offset of
      3000000000 puts the paste box outside the C `int` range, and a scale of 30000000 asks
      for a side outside it; the library refuses both with `OverflowError`. */
  lemma OverflowExamples()
    ensures Position(100, 100, 3000000000.0) == 3000000000
    ensures !PasteFits(Position(100, 100, 3000000000.0), 0, 100, 100)
    ensures ScaledDim(100, 30000000.0) == 3000000000
    ensures Resize(Image(100, 100, RGBA), ScaledDim(100, 30000000.0), ScaledDim(100, 30000000.0)).Raised?
    ensures Resize(Image(100, 100, RGBA), ScaledDim(100, 30000000.0), ScaledDim(100, 30000000.0)).error.OverflowError?
  {
  }

  /** The photo after the stretch to the frame's size and the rotation by `-rotation`. */
  function Turned(frame: Image, rotation: real, expanded: (Dim, Dim)): Image
    requires RotationBox(frame, expanded)
  {
    Rotate(Image(frame.width, frame.height, RGBA), -rotation, expanded)
  }

  /** With no rotation (or a half turn), a scale of one and whole offsets, the pasted photo
      has the frame's size and sits exactly the offsets away from the origin: with zero
      offsets it covers the whole canvas. */
  lemma UntransformedPhotoFillsCanvas(frame: Image, rotation: real, expanded: (Dim, Dim), dx: int, dy: int)
    requires RotationBox(frame, expanded)
    requires Mod360(-rotation) in {0.0, 180.0}
    ensures var t := Turned(frame, rotation, expanded);
      && ScaledDim(t.width, 1.0) == frame.width && ScaledDim(t.height, 1.0) == frame.height
      && Position(frame.width, frame.width, dx as real) == dx
      && Position(frame.height, frame.height, dy as real) == dy
    ensures frame.width > 0 && frame.height > 0 ==>
      Covers(frame.width, frame.height, Layer(Image(frame.width, frame.height, RGBA),
                                              Position(frame.width, frame.width, 0.0),
                                              Position(frame.height, frame.height, 0.0), true))
  {
  }

  /** What `process_images` leaves behind: the path it returns (also the file it writes)
      and the image written there. */
  datatype Rendered = Rendered(path: string, saved: Composite)

  /** The photo as `process_images` transforms it before pasting: stretched to the frame's
      size, rotated by `-rotation` with expansion, then resized to the truncated scaled
      size. It succeeds exactly when both resizes are accepted, and then has the scaled
      size of the turned photo. */
  function TransformedPhoto(photo: Image, frame: Image, scale: real, rotation: real,
                            expanded: (Dim, Dim)): (r: Result<Image>)
    requires RotationBox(frame, expanded)
    ensures var turned := Turned(frame, rotation, expanded);
      var sw, sh := ScaledDim(turned.width, scale), ScaledDim(turned.height, scale);
      && (r.Ok? <==> ResizeAccepts(photo, frame.width, frame.height) && ResizeAccepts(turned, sw, sh))
      && (r.Ok? ==> r.value.width == sw && r.value.height == sh && r.value.mode == photo.mode)
      && (r.Raised? ==> r.error.ValueError? || r.error.OverflowError?)
  {
    var resized := Resize(photo, frame.width, frame.height);
    if resized.Raised? then resized
    else
      var turned := Rotate(resized.value, -rotation, expanded);
      assert turned.width == Turned(frame, rotation, expanded).width;
      assert turned.height == Turned(frame, rotation, expanded).height;
      Resize(turned, ScaledDim(turned.width, scale), ScaledDim(turned.height, scale))
  }

  /** The compositing half of `process_images`: the transformed photo `photo` is pasted,
      masked by its own alpha, at its truncated centred-plus-offset position on a canvas of
      the converted frame `frame`'s size, the frame is pasted over it at the origin, and the
      flattened result is written as JPEG. It succeeds exactly when the photo's paste box
      fits the library's integers and the frame's size suits the JPEG encoder; the frame
      then covers the whole canvas. */
  method Compose(photo: Image, frame: Image, posX: real, posY: real) returns (r: Result<Rendered>)
    ensures var x, y := Position(frame.width, photo.width, posX), Position(frame.height, photo.height, posY);
      && (r.Ok? <==> PasteFits(x, y, photo.width, photo.height) && JpegFits(frame))
      && (r.Raised? ==> r.error.OverflowError? || r.error.ValueError? || r.error.OSError?)
      && (r.Raised? ==> (r.error.OverflowError? <==> !PasteFits(x, y, photo.width, photo.height)))
      && (r.Ok? ==>
            && r.value.path == RESULT_PATH
            && r.value.saved.image == Image(frame.width, frame.height, RGB)
            && r.value.saved.layers == [Layer(photo, x, y, true), Layer(frame, 0, 0, true)]
            && Covers(frame.width, frame.height, r.value.saved.layers[1]))
  {
    var combinedImage := new Canvas.New(RGBA, frame.width, frame.height);

    var x := Position(frame.width, photo.width, posX);
    var y := Position(frame.height, photo.height, posY);

    var pastedPhoto := combinedImage.Paste(photo, x, y, true);
    if pastedPhoto.Raised? {
      return Raised(pastedPhoto.error);
    }
    // The frame is pasted at the origin, so its box is its own size and always fits.
    var pastedFrame := combinedImage.Paste(frame, 0, 0, true);
    assert pastedFrame.Ok?;
    assert combinedImage.layers == [Layer(photo, x, y, true), Layer(frame, 0, 0, true)];

    var combinedImageRgb := combinedImage.Flatten(RGB);
    assert combinedImageRgb == Composite(Image(frame.width, frame.height, RGB), combinedImage.layers);
    var resultImagePath := Join(RESULT_FOLDER, "result_image.jpg");
    assert resultImagePath == RESULT_PATH;
    var written := SaveJpeg(combinedImageRgb.image);
    if written.Raised? {
      return Raised(written.error);
    }
    r := Ok(Rendered(resultImagePath, combinedImageRgb));
  }

  /** Whether `process_images` turns the opened photo and frame into a result: the stretch
      to the frame's size and the rescale of the turned photo are both accepted, the
      photo's paste box at its truncated centred-plus-offset position fits the library's
      integers, and the frame's size suits the JPEG encoder. */
  predicate Renders(photo: Image, frame: Image, scale: real, rotation: real, posX: real, posY: real,
                    expanded: (Dim, Dim))
    requires RotationBox(frame, expanded)
  {
    var turned := Turned(frame, rotation, expanded);
    var sw, sh := ScaledDim(turned.width, scale), ScaledDim(turned.height, scale);
    && ResizeAccepts(photo, frame.width, frame.height) && ResizeAccepts(turned, sw, sh)
    && PasteFits(Position(frame.width, sw, posX), Position(frame.height, sh, posY), sw, sh)
    && JpegFits(frame)
  }

  /** A scale of zero never renders: an encodable frame is non-empty, so is the photo
      stretched to it and turned, and the resize to `(0, 0)` rejects it. */
  lemma ScaleZeroNeverRenders(photo: Image, frame: Image, rotation: real, posX: real, posY: real,
                              expanded: (Dim, Dim))
    requires RotationBox(frame, expanded)
    ensures !Renders(photo, frame, 0.0, rotation, posX, posY, expanded)
  {
    var turned := Turned(frame, rotation, expanded);
    if JpegFits(frame) {
      assert turned.width >= 1 && turned.height >= 1;
      assert ScaledDim(turned.width, 0.0) == 0;
    }
  }

  /** `process_images(profile_path, template_path, scale, rotation, posX, posY)`.
      `pathExists(p)` answers `os.path.exists(p)` and `open(p)` answers `Image.open(p)`;
      `expanded` is the bounding box the library computes when rotating by an angle that
      is not a multiple of 90 degrees, one it can produce for the frame's size. */
  method ProcessImages(profilePath: string, templatePath: string, scale: real, rotation: real,
                       posX: real, posY: real, pathExists: string -> bool,
                       open: string -> Result<Image>, expanded: (Dim, Dim))
    returns (r: Result<Rendered>)
    requires open(templatePath).Ok? ==> RotationBox(open(templatePath).value, expanded)
    ensures !pathExists(profilePath) ==> r == Raised(FileNotFoundError(PROFILE_NOT_FOUND + profilePath))
    ensures pathExists(profilePath) && open(profilePath).Raised? ==> r == Raised(open(profilePath).error)
    ensures pathExists(profilePath) && open(profilePath).Ok? && !pathExists(templatePath) ==>
      r == Raised(FileNotFoundError(FRAME_NOT_FOUND + templatePath))
    ensures pathExists(profilePath) && open(profilePath).Ok? && pathExists(templatePath) && open(templatePath).Raised? ==>
      r == Raised(open(templatePath).error)
    ensures pathExists(profilePath) && open(profilePath).Ok? && pathExists(templatePath) && open(templatePath).Ok? ==>
      && (r.Ok? <==> Renders(open(profilePath).value, open(templatePath).value, scale, rotation, posX, posY, expanded))
      && (r.Raised? ==> r.error.ValueError? || r.error.OverflowError? || r.error.OSError?)
    ensures r.Ok? ==>
      && pathExists(profilePath) && open(profilePath).Ok? && pathExists(templatePath) && open(templatePath).Ok?
      && var frame := open(templatePath).value;
      && var turned := Turned(frame, rotation, expanded);
      && var sw, sh := ScaledDim(turned.width, scale), ScaledDim(turned.height, scale);
      && 0 <= sw <= INT_MAX && 0 <= sh <= INT_MAX
      && r.value.path == RESULT_PATH
      && r.value.saved.image == Image(frame.width, frame.height, RGB)
      && r.value.saved.layers ==
           [Layer(Image(sw, sh, RGBA), Position(frame.width, sw, posX), Position(frame.height, sh, posY), true),
            Layer(Convert(frame, RGBA), 0, 0, true)]
      && Covers(frame.width, frame.height, r.value.saved.layers[1])
  {
    if !pathExists(profilePath) {
      return Raised(FileNotFoundError(PROFILE_NOT_FOUND + profilePath));
    }
    var photoFile := open(profilePath);
    if photoFile.Raised? {
      return Raised(photoFile.error);
    }
    var profileImage := Convert(photoFile.value, RGBA);

    if !pathExists(templatePath) {
      return Raised(FileNotFoundError(FRAME_NOT_FOUND + templatePath));
    }
    var templateFile := open(templatePath);
    if templateFile.Raised? {
      return Raised(templateFile.error);
    }
    var templateImage := Convert(templateFile.value, RGBA);

    var transformed := TransformedPhoto(profileImage, templateImage, scale, rotation, expanded);
    if transformed.Raised? {
      return Raised(transformed.error);
    }
    r := Compose(transformed.value, templateImage, posX, posY);
  }

  /** `get_frame_list()` over the entries `listing` of the frame folder. */
  function FrameListing(listing: seq<string>): seq<string>
  {
    FrameList(listing, FRAME_SUFFIXES)
  }

  /** Case is ignored and no dot is needed: `Frame.JPEG` and `xjpg` are offered, while
      `frame.svg` is not. */
  lemma FrameSuffixExamples()
    ensures Listed("Frame.JPEG", FRAME_SUFFIXES)
    ensures Listed("xjpg", FRAME_SUFFIXES)
    ensures !Listed("frame.svg", FRAME_SUFFIXES)
  {
    assert Lower("Frame.JPEG") == "frame.jpeg";
    assert EndsWith(Lower("Frame.JPEG"), FRAME_SUFFIXES[2]);
    assert EndsWith(Lower("xjpg"), FRAME_SUFFIXES[1]);
    assert Lower("frame.svg") == "frame.svg";
  }

  /** The form of a request to `/`. The four numeric fields are the parsed values of
      `request.form.get(...)`, `None` when the field is absent. */
  datatype Request = Request(isPost: bool, profilePic: Option<Upload>, selectedFrame: Option<string>,
                             scale: Option<real>, rotation: Option<real>,
                             posX: Option<real>, posY: Option<real>)

  /** `float(request.form.get(name, default))`. */
  function FormFloat(field: Option<real>, default: real): (v: real)
    ensures field.None? ==> v == default
    ensures field.Some? ==> v == field.value
  {
    if field.Some? then field.value else default
  }

  /** Where the upload is saved: `os.path.join(UPLOAD_FOLDER, profile_pic.filename)`. A
      relative name lands in the upload folder; an absolute one replaces the folder. */
  function ProfilePath(u: Upload): (p: string)
    ensures |u.filename| > 0 && u.filename[0] == '/' ==> p == u.filename
    ensures !(|u.filename| > 0 && u.filename[0] == '/') ==> p == UPLOAD_FOLDER + u.filename
  {
    Join(UPLOAD_FOLDER, u.filename)
  }

  /** The template opened: `os.path.join(FRAME_FOLDER, os.path.basename(selected_frame))`.
      Whatever the frame id, the path is the frame folder followed by one component with
      no separator in it. */
  function TemplatePath(selected: string): (p: string)
    ensures |FRAME_FOLDER| <= |p| && p[..|FRAME_FOLDER|] == FRAME_FOLDER
    ensures p[|FRAME_FOLDER|..] == Basename(selected)
    ensures '/' !in p[|FRAME_FOLDER|..]
  {
    var name := Basename(selected);
    assert |name| > 0 ==> name[0] in name;
    Join(FRAME_FOLDER, name)
  }

  /** Directories in the frame id are dropped: `../../app.py` opens `static/frames/app.py`,
      and an absolute id is confined the same way. */
  lemma TemplatePathExamples()
    ensures TemplatePath("../../app.py") == "static/frames/app.py"
    ensures TemplatePath("/etc/hosts") == "static/frames/hosts"
  {
    BasenameAfterLastSlash("../../app.py", 5);
    BasenameAfterLastSlash("/etc/hosts", 4);
  }

  /** `index()`. `saveUpload(p)` is the outcome of `profile_pic.save(p)`; `pathExists` and
      `open` answer `os.path.exists` and `Image.open` once the upload is saved; `listing` is
      `os.listdir(FRAME_FOLDER)`; `expanded` is the rotation's bounding box as in
      `ProcessImages`. Returns the response and the file-system writes made. The save runs
      outside the `try`, so its failure escapes the view and the framework answers 500 with
      its own page. */
  method Index(req: Request, saveUpload: string -> Result<()>, pathExists: string -> bool,
               open: string -> Result<Image>, listing: seq<string>, expanded: (Dim, Dim))
    returns (resp: Response, effects: seq<Effect>)
    requires forall p :: open(p).Ok? ==> RotationBox(open(p).value, expanded)
    ensures !req.isPost ==> resp == Response(200, Page(None, FrameListing(listing))) && effects == []
    ensures req.isPost && !(UploadPresent(req.profilePic) && FieldPresent(req.selectedFrame)) ==>
      resp == Response(400, ErrorJson(MISSING_INPUT)) && effects == []
    ensures req.isPost && UploadPresent(req.profilePic) && FieldPresent(req.selectedFrame) ==>
      var profilePath := ProfilePath(req.profilePic.value);
      var templatePath := TemplatePath(req.selectedFrame.value);
      && (saveUpload(profilePath).Raised? ==>
            resp == Response(500, Uncaught(saveUpload(profilePath).error)) && effects == [])
      && (saveUpload(profilePath).Ok? ==>
            && |effects| >= 1 && effects[0] == SavedUpload(profilePath)
            && (!pathExists(profilePath) ==>
                  resp == Response(404, ErrorJson(PROFILE_NOT_FOUND + profilePath)))
            && (pathExists(profilePath) && open(profilePath).Raised? ==>
                  var e := open(profilePath).error;
                  resp == if e.FileNotFoundError? then Response(404, ErrorJson(e.message))
                          else Response(500, ErrorJson(PROCESSING_FAILED)))
            && (pathExists(profilePath) && open(profilePath).Ok? && !pathExists(templatePath) ==>
                  resp == Response(404, ErrorJson(FRAME_NOT_FOUND + templatePath)))
            && (pathExists(profilePath) && open(profilePath).Ok? && pathExists(templatePath) && open(templatePath).Raised? ==>
                  var e := open(templatePath).error;
                  resp == if e.FileNotFoundError? then Response(404, ErrorJson(e.message))
                          else Response(500, ErrorJson(PROCESSING_FAILED)))
            && (pathExists(profilePath) && open(profilePath).Ok? && pathExists(templatePath) && open(templatePath).Ok? ==>
                  var frame := open(templatePath).value;
                  var scale := FormFloat(req.scale, 1.0);
                  && (resp.status == 200 <==>
                        Renders(open(profilePath).value, frame, scale, FormFloat(req.rotation, 0.0),
                                FormFloat(req.posX, 0.0), FormFloat(req.posY, 0.0), expanded))
                  && (resp.status != 200 ==> resp == Response(500, ErrorJson(PROCESSING_FAILED)))
                  && (scale == 0.0 ==>
                        resp == Response(500, ErrorJson(PROCESSING_FAILED))))
            && (resp.status != 200 ==> effects == [SavedUpload(profilePath)])
            && (resp.status == 200 ==>
                  resp == Response(200, ResultJson(RESULT_PATH)) &&
                  effects == [SavedUpload(profilePath), WroteResult(RESULT_PATH)]))
    ensures resp.status in {200, 400, 404, 500}
    ensures resp.status == 400 <==> req.isPost && !(UploadPresent(req.profilePic) && FieldPresent(req.selectedFrame))
    ensures resp.status != 200 ==> WroteResult(RESULT_PATH) !in effects
  {
    if !req.isPost {
      return Response(200, Page(None, FrameListing(listing))), [];
    }
    var profilePic, selectedFrame := req.profilePic, req.selectedFrame;
    var scale := FormFloat(req.scale, 1.0);
    var rotation := FormFloat(req.rotation, 0.0);
    var posX := FormFloat(req.posX, 0.0);
    var posY := FormFloat(req.posY, 0.0);

    if !UploadPresent(profilePic) || !FieldPresent(selectedFrame) {
      return Response(400, ErrorJson(MISSING_INPUT)), [];
    }
    if profilePic.value.filename == "" {
      return Response(400, ErrorJson(EMPTY_FILENAME)), [];
    }

    var profilePath := ProfilePath(profilePic.value);
    var templatePath := TemplatePath(selectedFrame.value);
    var saved := saveUpload(profilePath);
    if saved.Raised? {
      return Response(500, Uncaught(saved.error)), [];
    }
    effects := [SavedUpload(profilePath)];

    var result := ProcessImages(profilePath, templatePath, scale, rotation, posX, posY, pathExists, open, expanded);
    if scale == 0.0 && open(profilePath).Ok? && open(templatePath).Ok? {
      ScaleZeroNeverRenders(open(profilePath).value, open(templatePath).value, rotation, posX, posY, expanded);
    }
    match result {
      case Ok(rendered) =>
        effects := effects + [WroteResult(rendered.path)];
        resp := Response(200, ResultJson(rendered.path));
      case Raised(FileNotFoundError(message)) =>
        resp := Response(404, ErrorJson(message));
      case Raised(_) =>
        resp := Response(500, ErrorJson(PROCESSING_FAILED));
    }
  }
}
