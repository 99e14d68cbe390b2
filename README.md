# ImageFrame: a verified model of the photo-framing compositor

ImageFrame is a small Flask application that composites an uploaded profile photo under a
decorative frame image with Pillow. This project models, in Dafny, the part of it that is not
I/O glue: the geometry of the two compositing pipelines, the sizes that flow through them, and
the decisions that map a request to a response.

- `app.py` (module `SimpleApp`): the centre-crop-and-fill variant. The photo is cropped to the
  largest centred square, stretched to the frame's size, and painted onto a canvas of the
  frame's size. The frame is painted over it through its own alpha channel. The result is
  flattened to RGB and saved as JPEG.
- `app_4.py` (module `ExtendedApp`): the scale-rotate-translate variant. The whole photo is
  stretched to the frame's size and rotated with an expanded bounding box. It is then scaled
  with `int()` truncation and pasted at a centred position shifted by user offsets.
- `Frames`: the `get_frame_list` filter that both applications share. Only the allowed
  suffixes differ between them.
- `Pillow`: the image library reduced to sizes and modes. `Image.new` and `paste` work in place
  on a `Canvas` class whose `Paste` keeps the size and records each paste as a layer.
- `Python`: the exact runtime semantics the code depends on. This covers `int()` on a float
  (truncation toward zero), `//`, float `%`, `str.lower`, `str.endswith`, `os.path.join` and
  `os.path.basename`.
- `Web`: request truthiness, response bodies, and a trace of file-system writes.

An image is a `(width, height, mode)` value. Library calls are functions whose contracts speak
only of sizes and of the errors they raise. File-system queries are function parameters:
the outcome of `profile_pic.save` is one, `os.path.exists` and `Image.open` answer for the file
system as it stands after the upload is saved, and `os.listdir` is a listing. Each request handler returns its response together with
the file writes it made, so that "nothing is written before validation" can be stated.

Notes on the code's behaviour:

- A zero scale has no dimension check of its own. It reaches Pillow's `resize`, which raises
  `ValueError`, and that lands in the generic 500 branch.
- The placement uses `int()`, which truncates toward zero.
- The offsets are parsed as floats.
- In `app.py` a missing frame file gives 500: only `app_4.py` checks for existence and answers
  404.
- An uploaded file object is falsy when its file name is empty, so `not profile_pic` is true
  for it. An empty file name is therefore rejected by the first check, with the "required"
  message, and the second check (`filename == ''`) is never reached. Both checks are kept in
  the model in the source's order.
- Pillow's C layer reads every size and coordinate as a C `int`. Neither the scale nor the
  offsets are bounded by `app_4.py`, so a large scale or offset makes `resize` or `paste`
  raise `OverflowError`, which lands in the generic 500 branch.
- The result is saved as JPEG, whose encoder takes sides from 1 to 65500 pixels. A larger
  frame makes the save raise `OSError` (an empty one `ValueError`), which lands in the generic
  500 branch with no result written. In `app.py` any readable image can be the frame, since
  the frame id is not confined to the frame folder.
- `profile_pic.save` runs before the `try`. When it fails (an upload named `a/b.png` names a
  missing sub-folder), the exception escapes the view and the framework answers 500 with its
  own error page, with nothing saved.

## Model

| member | source | states |
|---|---|---|
| `SimpleApp.MinDim` | app.py:63-64 | `min_dim` is at most both sides and equals one of them |
| `SimpleApp.CropBox` | app.py:63-70 | the crop box is a square of side `min(w, h)` inside the image; each left/top margin is the floor of half the slack and each right/bottom margin its ceiling, so they differ by at most one |
| `SimpleApp.CropKeepsShorterSide` | app.py:64-70 | if `w <= h` the box spans `0..w` horizontally, and symmetrically for the height |
| `SimpleApp.CropLandscapeExample` | app.py:64-70 | an 800x600 photo gives the box `(100, 0, 700, 600)` |
| `SimpleApp.ProcessImages` | app.py:58-84 | an open failure of the photo, then of the frame, is re-raised; otherwise it succeeds exactly when the stretch of the `min_dim` square to the frame's size is accepted and the frame's sides lie in the JPEG encoder's range 1..65500 (so always when they do), and fails only with `ValueError` or `OSError`; the two pastes at the origin always fit; on success the returned path is the constant `result/result_image.jpg`, the JPEG written has the frame's size in RGB mode, and the canvas holds the stretched photo at (0,0) unmasked, then the frame masked; both cover the canvas |
| `SimpleApp.Index` | app.py:21-51 | GET renders the frame list; a missing photo or frame (an empty file name included) gives 400 with nothing saved; otherwise a failed upload save escapes as a 500 error page with nothing saved; once saved, an open failure gives 500; once both open, the status is 200 exactly when the stretch of the square to the frame's size is accepted and the frame suits the JPEG encoder; every processing 500 is the fixed error body with only the upload saved; every 200 renders the page with the constant result path after saving the upload and writing the result file; the status is 400 exactly when validation fails |
| `SimpleApp.ProfilePath` | app.py:37 | a relative upload name is placed under `static/uploads/`; an absolute one replaces the folder |
| `SimpleApp.TemplatePath` | app.py:38 | a relative frame id is appended to `static/frames/` as given; an absolute frame id replaces the folder |
| `SimpleApp.FrameSuffixExamples` | app.py:55 | `xpng` and `Frame.SVG` are listed (no dot needed, case ignored), `frame.jpg` is not |
| `Frames.FrameList` | app.py:54-55 | the frame list holds only names whose lower-cased form ends with an allowed suffix, each such name as often as in the listing, in listing order (a subsequence); `SimpleApp.FrameListing` and `ExtendedApp.FrameListing` are `get_frame_list()` of each application, this list over `os.listdir` with its own suffixes |
| `Python.FloorDiv` | app.py:66-69 | `a // b` is the largest `q` with `q * b <= a` |
| `Pillow.Convert` | app.py:60-61 | converting keeps the size and sets the mode |
| `Pillow.Crop` | app.py:65-70 | cropping succeeds exactly when right >= left, lower >= upper and the box fits a C `int`, and then has the box's size; a reversed box raises `ValueError`, an oversized one `OverflowError`, with the C layer's "less than minimum" message for a left edge below the C `int` range |
| `Pillow.Resize` | app.py:72 | resizing succeeds exactly when the target is the image's own size or has both sides between one and the largest C `int`, and then has the target size; a side outside the C `int` range raises `OverflowError`, any other refusal `ValueError` |
| `Pillow.Canvas.New` | app.py:74 | a new canvas has the requested size and mode and nothing painted |
| `Pillow.Canvas.Paste` | app.py:75-76 | pasting keeps the canvas's size and mode; it succeeds exactly when the box `(x, y, x + w, y + h)` fits a C `int`, and then appends exactly one layer; otherwise it raises `OverflowError` and paints nothing |
| `Pillow.Canvas.Flatten` | app.py:78 | converting yields an image of the canvas's size in the new mode holding the canvas's layers |
| `Pillow.SaveJpeg` | app.py:81 | saving as JPEG succeeds exactly when both sides lie in 1..65500; an empty image raises `ValueError`, a side above 65500 `OSError` |
| `Pillow.CoversIff` | app.py:75 | a paste covers every pixel of a non-empty canvas exactly when its rectangle contains the top-left and bottom-right pixels |
| `Pillow.Rotate` | app_4.py:82 | rotation keeps the mode; a half or whole turn keeps the size, a quarter turn swaps the sides; an empty image stays empty and an image with both sides non-empty keeps both sides non-empty, given a bounding box the library can produce (`RotationBox`) |
| `Pillow.RotateWholeTurns` | app_4.py:82 | rotating by any whole number of turns, in either direction, returns the image unchanged |
| `Python.Mod360` | app_4.py:82 | an angle reduced modulo 360 lies in `[0, 360)` and differs from the angle by whole turns |
| `Python.Trunc` | app_4.py:84-91 | `int(x)` is the integer nearest to `x` on the side of zero: `r <= x < r + 1` for `x >= 0`, `r - 1 < x <= r` for `x < 0` |
| `Python.TruncVersusFloor` | app_4.py:90-91 | `int(x)` equals `floor(x)` unless `x` is negative and not whole, where it is `floor(x) + 1` |
| `Python.TruncOfIntegral` | app_4.py:84-85 | `int()` leaves a whole value unchanged |
| `ExtendedApp.ScaledDim` | app_4.py:84-85 | for a non-negative scale, the scaled side is the largest whole number not exceeding `d * scale`; a negative scale gives no positive side |
| `ExtendedApp.ScaleOneKeepsSize` | app_4.py:84-86 | scale 1 leaves each side unchanged |
| `ExtendedApp.ScaleZeroRejected` | app_4.py:84-86 | scale 0 asks for `(0, 0)`, which the resize of a non-empty photo rejects with `ValueError` |
| `ExtendedApp.OverflowExamples` | app_4.py:84-93 | on a 100x100 frame, an offset of 3000000000 gives a paste box outside the C `int` range, and a scale of 30000000 gives a resize that raises `OverflowError` |
| `ExtendedApp.Position` | app_4.py:90-91 | the position is `(W - w) / 2 + offset` truncated toward zero |
| `ExtendedApp.PositionCentred` | app_4.py:90-91 | with an even `W - w` and a whole offset, the position is exactly `(W - w) / 2 + offset` |
| `ExtendedApp.PositionVersusFloor` | app_4.py:90-91 | the position is the floor of the exact value except for a negative non-whole value, where it is one more |
| `ExtendedApp.PositionTruncatesNotFloors` | app_4.py:90-91 | `W - w = -1` with offset 0 places the photo at 0, where the floor is -1 |
| `ExtendedApp.UntransformedPhotoFillsCanvas` | app_4.py:81-93 | with rotation a multiple of 180 degrees and scale 1, the photo keeps the frame's size and whole offsets place it exactly at the offsets; with zero offsets it covers the canvas |
| `ExtendedApp.ScaleZeroNeverRenders` | app_4.py:81-99 | with scale 0 the photo never renders, whatever the files, rotation and offsets: a frame the JPEG encoder accepts is non-empty, so the turned photo is too, and its resize to `(0, 0)` is rejected |
| `ExtendedApp.TransformedPhoto` | app_4.py:81-86 | the stretched, rotated and rescaled photo exists exactly when both resizes are accepted, and then has the truncated scaled size of the turned photo; a failure is `ValueError` or `OverflowError` |
| `ExtendedApp.Compose` | app_4.py:88-102 | compositing succeeds exactly when the photo's paste box at the truncated centred-plus-offset position fits a C `int` and the frame's sides lie in the JPEG encoder's range 1..65500; a paste box outside the C `int` range, and only that, raises `OverflowError`, a refused save `ValueError` or `OSError`; on success the path is `static/result/result_image.jpg`, the JPEG has the frame's size in RGB mode, the canvas holds the photo there, masked, then the frame at the origin, and the frame covers the canvas |
| `ExtendedApp.ProcessImages` | app_4.py:63-102 | the profile's existence is checked before the frame's, and a missing one raises `FileNotFoundError` with the source's message; open failures are re-raised; once both open, it succeeds exactly when `Renders` holds (both resizes accepted, the paste box inside the C `int` range, the frame's sides in the JPEG encoder's range 1..65500), and otherwise raises `ValueError`, `OverflowError` or `OSError`; on success the path is `static/result/result_image.jpg`, the JPEG has the frame's size in RGB mode, and the canvas holds the truncated-scale photo at the truncated centred-plus-offset position, masked, then the frame |
| `ExtendedApp.FormFloat` | app_4.py:29-32 | an absent form field takes the default, a present one its parsed value |
| `ExtendedApp.ProfilePath` | app_4.py:42 | a relative upload name is placed under `static/uploads/`; an absolute one replaces the folder |
| `ExtendedApp.TemplatePath` | app_4.py:43 | the template path is `static/frames/` followed by the basename of the frame id, which contains no `/` |
| `ExtendedApp.TemplatePathExamples` | app_4.py:43 | `../../app.py` opens `static/frames/app.py`, and `/etc/hosts` opens `static/frames/hosts` |
| `ExtendedApp.FrameSuffixExamples` | app_4.py:61 | `Frame.JPEG` and `xjpg` are listed, `frame.svg` is not |
| `ExtendedApp.Index` | app_4.py:22-58 | GET renders the frame list; a missing photo or frame (an empty file name included) gives 400 before anything is saved; otherwise a failed upload save escapes as a 500 error page with nothing saved; once saved, a missing photo, then a missing frame, gives 404 with the source's message; an open failure gives 404 with the error's message when it is `FileNotFoundError` and 500 with the fixed message otherwise; once both open, status 200 holds exactly when `Renders` holds (both resizes accepted, the paste box inside the C `int` range, the frame suited to the JPEG encoder), any other outcome is 500 with the fixed message, and scale 0 always gives 500; every failure after the save keeps only the upload; every 200 answers the result path after saving the upload and writing the result file |
| `Python.Join` | app_4.py:42-43 | an absolute second part is returned as is; otherwise the first part is a prefix and the second a suffix, with exactly one `/` between them when the first part is non-empty (added only when it does not already end in `/`) |
| `Python.Lower` | app.py:55 | lower-casing keeps the length, maps each ASCII capital to its small letter and keeps every other character |
| `Python.EndsWith` | app.py:55 | `endswith` holds exactly when the string is some prefix followed by the suffix |
| `Web.UploadPresent` | app.py:29 | a missing upload is falsy, and an uploaded file is truthy exactly when its file name is non-empty |
| `Web.FieldPresent` | app.py:29 | a missing form field is falsy, and a present one is truthy exactly when it is non-empty |
| `Python.RFind` | app_4.py:43 | `rfind` returns the last index of the character, or -1 when it does not occur |
| `Python.Basename` | app_4.py:43 | the basename is the longest suffix of the path that holds no `/` |
| `Python.BasenameAfterLastSlash` | app_4.py:43 | when `p[k]` is the last `/` of `p`, the basename is exactly `p[k + 1..]` |

## Left out

- Flask routing, `render_template`, `jsonify`, `send_file` and the `/download` route (app.py:86-94, app_4.py:104-113) are HTTP glue. Responses are reduced to a status code and the body's fields.
- File-system effects (`os.makedirs`, `profile_pic.save`, writing the JPEG) are recorded as a trace of writes, not performed. The outcome of `profile_pic.save`, `os.path.exists`, `Image.open` and `os.listdir` are inputs. Writing the JPEG is assumed to fail only for the encoder's size limits: a missing or read-only result folder is not modelled.
- A JPEG save that fails has already opened the result file: Pillow removes it when the save created it, but a result left by an earlier request stays truncated. The trace records no write in either case.
- Pixel content is not modelled: Lanczos resampling, alpha blending in `paste`, RGBA-to-RGB flattening and JPEG encoding. Only sizes, modes and the record of pastes are kept.
- Pillow.Rotate: for an angle that is not a multiple of 90 degrees, the expanded bounding box comes from floating-point trigonometry. The model takes that box as a parameter. It constrains the box only as `RotationBox` says: non-empty for an image with both sides non-empty, and `(0, 0)` for an empty image. The box of an image with exactly one empty side is left free.
- Pillow.Resize: the model assumes Pillow's rules for the target size. A request for the image's own size returns a copy, any other target needs both sides in the C `int` range and at least one. Resizing an empty source is not modelled separately. A target inside the C `int` range but too large to allocate raises `MemoryError` in Pillow; the model accepts it.
- Pillow.Crop: a box larger than Pillow's decompression-bomb limit raises `DecompressionBombError` before the C layer is reached; the model does not have that limit. `app.py` only crops boxes inside an already opened image.
- Pillow.Canvas.New: `Image.new` may fail to allocate a huge canvas; the model does not. Both applications allocate canvases of an already opened frame's size.
- ExtendedApp.TransformedPhoto: holds only within Pillow's allocation limits. A scaled size inside the C `int` range that cannot be allocated raises `MemoryError`, which the model does not produce.
- ExtendedApp.ProcessImages: holds only within Pillow's allocation limits, as for `ExtendedApp.TransformedPhoto`. Such a `MemoryError` would be caught as a generic exception (a 500).
- ExtendedApp.Index: holds only within Pillow's allocation limits, as for `ExtendedApp.ProcessImages`: a `MemoryError` would give 500 where the model gives 200.
- Float parsing of the form fields (app_4.py:29-32) is not modelled. This includes the uncaught `ValueError` on a non-numeric value, which happens before validation. Scale, rotation and offsets are exact reals, so float rounding in `w * scale` and in the placement is not modelled either.
- Python.Lower: folds only ASCII letters. Python's full Unicode case mapping is not modelled.
- Image modes other than RGB and RGBA are an opaque `OtherMode`. `convert` is assumed to succeed.
- `logging` calls are not modelled.
- The single shared result slot, and its race under concurrent requests, is not modelled.
- app_final.py and app_9.py are not modelled. Their session storage, `base64`, `secure_filename` and upload-only routes are library calls and cookie I/O.
- `os.path.basename` may yield `''`, `.` or `..` (for a frame id ending in `/`, or the id `..`). The template path is then a directory, and `Image.open` raises a non-`FileNotFoundError` error (a 500). The model covers this through the `open` parameter and does not special-case it.
