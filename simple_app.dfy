/** app.py: the centre-crop-and-fill variant. The photo is cropped to the largest centred
    square, stretched to the frame's size, painted onto a canvas of the frame's size, and
    the frame is painted over it through its own alpha channel. */
module SimpleApp {
  import opened Python
  import opened Pillow
  import opened Frames
  import opened Web

  const UPLOAD_FOLDER: string := "static/uploads/"
  const RESULT_FOLDER: string := "static/result/"
  const FRAME_FOLDER: string := "static/frames/"
  const FRAME_SUFFIXES: seq<string> := ["png", "svg"]
  /** The path handed to the page, relative to the static folder. */
  const RESULT_URL: string := "result/result_image.jpg"

  const MISSING_INPUT: string := "Profile picture and a frame are required"
  const EMPTY_FILENAME: string := "Profile picture name cannot be empty"
  const PROCESSING_FAILED: string := "Error processing images"

  /** `min(profile_width, profile_height)`. */
  function MinDim(w: nat, h: nat): (m: nat)
    ensures m <= w && m <= h
    ensures m == w || m == h
  {
    if w <= h then w else h
  }

  /** The centre-crop box, computed with floor division. It is a square of side
      `min(w, h)` inside the image; the margin on the left (top) is the floor of half the
      slack and the margin on the right (bottom) its ceiling, so the two differ by at most
      one pixel. */
  function CropBox(w: nat, h: nat): (b: Box)
    ensures b.right - b.left == MinDim(w, h) && b.lower - b.upper == MinDim(w, h)
    ensures 0 <= b.left <= b.right <= w && 0 <= b.upper <= b.lower <= h
    ensures 2 * b.left <= w - MinDim(w, h) <= 2 * b.left + 1
    ensures 2 * (w - b.right) - 1 <= w - MinDim(w, h) <= 2 * (w - b.right)
    ensures 2 * b.upper <= h - MinDim(w, h) <= 2 * b.upper + 1
    ensures 2 * (h - b.lower) - 1 <= h - MinDim(w, h) <= 2 * (h - b.lower)
  {
    var m := MinDim(w, h);
    Box(FloorDiv(w - m, 2), FloorDiv(h - m, 2), FloorDiv(w + m, 2), FloorDiv(h + m, 2))
  }

  /** The shorter side is kept whole; only the longer one is trimmed. */
  lemma CropKeepsShorterSide(w: nat, h: nat)
    ensures w <= h ==> CropBox(w, h).left == 0 && CropBox(w, h).right == w
    ensures h <= w ==> CropBox(w, h).upper == 0 && CropBox(w, h).lower == h
  {
  }

  /** An 800 x 600 photo is cropped to the 600 x 600 square from (100, 0) to (700, 600). */
  lemma CropLandscapeExample()
    ensures CropBox(800, 600) == Box(100, 0, 700, 600)
  {
  }

  /** What `process_images` leaves behind: the path it returns, the file it writes, and
      the image written there. */
  datatype Rendered = Rendered(url: string, file: string, saved: Composite)

  /** `process_images(profile_path, template_path)`. `open(p)` is what
      `Image.open(p)` gives on the file system as it stands once the upload is saved. */
  method ProcessImages(profilePath: string, templatePath: string, open: string -> Result<Image>)
    returns (r: Result<Rendered>)
    ensures open(profilePath).Raised? ==> r == Raised(open(profilePath).error)
    ensures open(profilePath).Ok? && open(templatePath).Raised? ==> r == Raised(open(templatePath).error)
    ensures open(profilePath).Ok? && open(templatePath).Ok? ==>
      var photo, frame := open(profilePath).value, open(templatePath).value;
      var m := MinDim(photo.width, photo.height);
      && (r.Ok? <==> ResizeAccepts(Image(m, m, RGBA), frame.width, frame.height) && JpegFits(frame))
      && (r.Raised? ==> r.error.ValueError? || r.error.OSError?)
      && (JpegFits(frame) ==> r.Ok?)
    ensures r.Ok? ==>
      && open(profilePath).Ok? && open(templatePath).Ok?
      && var frame := open(templatePath).value;
      && r.value.url == RESULT_URL
      && r.value.file == RESULT_FOLDER + "result_image.jpg"
      && r.value.saved.image == Image(frame.width, frame.height, RGB)
      && r.value.saved.layers == [Layer(Image(frame.width, frame.height, RGBA), 0, 0, false),
                                  Layer(Convert(frame, RGBA), 0, 0, true)]
      && Covers(frame.width, frame.height, r.value.saved.layers[0])
      && Covers(frame.width, frame.height, r.value.saved.layers[1])
  {
    var photoFile := open(profilePath);
    if photoFile.Raised? {
      return Raised(photoFile.error);
    }
    var profileImage := Convert(photoFile.value, RGBA);
    var templateFile := open(templatePath);
    if templateFile.Raised? {
      return Raised(templateFile.error);
    }
    var templateImage := Convert(templateFile.value, RGBA);

    var profileWidth, profileHeight := profileImage.width, profileImage.height;
    profileImage := Crop(profileImage, CropBox(profileWidth, profileHeight)).value;

    var resized := Resize(profileImage, templateImage.width, templateImage.height);
    if resized.Raised? {
      return Raised(resized.error);
    }
    profileImage := resized.value;

    var combinedImage := new Canvas.New(RGBA, templateImage.width, templateImage.height);
    // Both pastes are at the origin, so their boxes are the images' own sizes and always
    // fit the library's integers: neither can raise.
    var pastedPhoto := combinedImage.Paste(profileImage, 0, 0, false);
    assert pastedPhoto.Ok?;
    var pastedFrame := combinedImage.Paste(templateImage, 0, 0, true);
    assert pastedFrame.Ok?;
    var combinedImageRgb := combinedImage.Flatten(RGB);
    var written := SaveJpeg(combinedImageRgb.image);
    if written.Raised? {
      return Raised(written.error);
    }

    r := Ok(Rendered(RESULT_URL, Join(RESULT_FOLDER, "result_image.jpg"), combinedImageRgb));
  }

  /** `get_frame_list()` over the entries `listing` of the frame folder. */
  function FrameListing(listing: seq<string>): seq<string>
  {
    FrameList(listing, FRAME_SUFFIXES)
  }

  /** The suffix test needs no dot and ignores case: `xpng` and `Frame.SVG` are offered,
      `frame.jpg` is not. */
  lemma FrameSuffixExamples()
    ensures Listed("xpng", FRAME_SUFFIXES)
    ensures Listed("Frame.SVG", FRAME_SUFFIXES)
    ensures !Listed("frame.jpg", FRAME_SUFFIXES)
  {
    assert EndsWith(Lower("xpng"), FRAME_SUFFIXES[0]);
    assert Lower("Frame.SVG") == "frame.svg";
    assert EndsWith(Lower("Frame.SVG"), FRAME_SUFFIXES[1]);
    assert Lower("frame.jpg") == "frame.jpg";
  }

  /** The form of a request to `/`: `request.method`, `request.files.get('profile_pic')` and
      `request.form.get('selected_frame')`. */
  datatype Request = Request(isPost: bool, profilePic: Option<Upload>, selectedFrame: Option<string>)

  /** Where the upload is saved: `os.path.join(UPLOAD_FOLDER, profile_pic.filename)`. A
      relative name lands in the upload folder; an absolute one replaces the folder. */
  function ProfilePath(u: Upload): (p: string)
    ensures |u.filename| > 0 && u.filename[0] == '/' ==> p == u.filename
    ensures !(|u.filename| > 0 && u.filename[0] == '/') ==> p == UPLOAD_FOLDER + u.filename
  {
    Join(UPLOAD_FOLDER, u.filename)
  }

  /** The template opened: `os.path.join(FRAME_FOLDER, selected_frame)`. The frame id is
      joined as given: a relative id is appended to the frame folder (and may climb out of
      it with `..`), while an absolute id replaces the folder altogether. */
  function TemplatePath(selected: string): (p: string)
    ensures |selected| > 0 && selected[0] == '/' ==> p == selected
    ensures !(|selected| > 0 && selected[0] == '/') ==> p == FRAME_FOLDER + selected
  {
    Join(FRAME_FOLDER, selected)
  }

  /** `index()`. `saveUpload(p)` is the outcome of `profile_pic.save(p)`; `open` answers
      `Image.open` once the upload is saved; `listing` is `os.listdir(FRAME_FOLDER)`. Returns
      the response and the file-system writes made. The save runs outside the `try`, so
      its failure escapes the view and the framework answers 500 with its own page. */
  method Index(req: Request, saveUpload: string -> Result<()>, open: string -> Result<Image>,
               listing: seq<string>)
    returns (resp: Response, effects: seq<Effect>)
    ensures !req.isPost ==> resp == Response(200, Page(None, FrameListing(listing))) && effects == []
    ensures req.isPost && !(UploadPresent(req.profilePic) && FieldPresent(req.selectedFrame)) ==>
      resp == Response(400, ErrorJson(MISSING_INPUT)) && effects == []
    ensures req.isPost && UploadPresent(req.profilePic) && FieldPresent(req.selectedFrame) ==>
      var profilePath := ProfilePath(req.profilePic.value);
      var templatePath := TemplatePath(req.selectedFrame.value);
      && (saveUpload(profilePath).Raised? ==>
            resp == Response(500, Uncaught(saveUpload(profilePath).error)) && effects == [])
      && (saveUpload(profilePath).Ok? ==>
            && |effects| >= 1 && effects[0] == SavedUpload(profilePath)
            && (open(profilePath).Raised? || open(templatePath).Raised? ==> resp.status == 500)
            && (open(profilePath).Ok? && open(templatePath).Ok? ==>
                  var photo, frame := open(profilePath).value, open(templatePath).value;
                  var m := MinDim(photo.width, photo.height);
                  (resp.status == 200 <==>
                     ResizeAccepts(Image(m, m, RGBA), frame.width, frame.height) && JpegFits(frame)))
            && (open(profilePath).Ok? && open(templatePath).Ok? && JpegFits(open(templatePath).value) ==>
                  resp.status == 200)
            && (resp.status == 500 ==>
                  resp == Response(500, ErrorJson(PROCESSING_FAILED)) && effects == [SavedUpload(profilePath)])
            && (resp.status == 200 ==>
                  && resp == Response(200, Page(Some(RESULT_URL), FrameListing(listing)))
                  && effects == [SavedUpload(profilePath), WroteResult(RESULT_FOLDER + "result_image.jpg")]))
    ensures resp.status in {200, 400, 500}
    ensures resp.status == 400 <==> req.isPost && !(UploadPresent(req.profilePic) && FieldPresent(req.selectedFrame))
  {
    if !req.isPost {
      return Response(200, Page(None, FrameListing(listing))), [];
    }
    var profilePic, selectedFrame := req.profilePic, req.selectedFrame;
    if !UploadPresent(profilePic) || !FieldPresent(selectedFrame) {
      return Response(400, ErrorJson(MISSING_INPUT)), [];
    }
    if profilePic.value.filename == "" {
      return Response(400, ErrorJson(EMPTY_FILENAME)), [];
    }

    var profilePath := ProfilePath(profilePic.value);
    var templatePath := TemplatePath(selectedFrame.value);
    var saved := saveUpload(profilePath);
    if saved.Raised? {
      return Response(500, Uncaught(saved.error)), [];
    }
    effects := [SavedUpload(profilePath)];

    var result := ProcessImages(profilePath, templatePath, open);
    match result {
      case Ok(rendered) =>
        effects := effects + [WroteResult(rendered.file)];
        resp := Response(200, Page(Some(rendered.url), FrameListing(listing)));
      case Raised(_) =>
        resp := Response(500, ErrorJson(PROCESSING_FAILED));
    }
  }
}
