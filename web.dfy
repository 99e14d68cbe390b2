/** What the applications see of a request and hand back as a response, with the file-system
    writes a request performs recorded as a trace. Routing, templates and JSON encoding are
    not modelled beyond the status code and the fields of the body. */
module Web {
  import opened Python

  /** An uploaded file, reduced to the name the client gave it. */
  datatype Upload = Upload(filename: string)

  /** Python truthiness of `request.files.get(...)`: a missing upload is `None`, and an
      uploaded file object is false when its file name is empty. */
  predicate UploadPresent(u: Option<Upload>)
    ensures u.None? ==> !UploadPresent(u)
    ensures u.Some? ==> (UploadPresent(u) <==> |u.value.filename| > 0)
  {
    u.Some? && u.value.filename != ""
  }

  /** Python truthiness of `request.form.get(...)`: missing or the empty string is false. */
  predicate FieldPresent(f: Option<string>)
    ensures f.None? ==> !FieldPresent(f)
    ensures f.Some? ==> (FieldPresent(f) <==> |f.value| > 0)
  {
    f.Some? && f.value != ""
  }

  /** `jsonify({"error": ...})`, the rendered `index.html` page, `jsonify({"result_image": ...})`,
      or the page the framework serves for an exception the view lets escape (with
      `debug=True`, the debugger's traceback of that exception). */
  datatype Body =
    | ErrorJson(error: string)
    | Page(resultImage: Option<string>, frames: seq<string>)
    | ResultJson(result: string)
    | Uncaught(exception: Exception)

  datatype Response = Response(status: int, body: Body)

  /** A write to the file system: the uploaded photo saved, or the composite JPEG written. */
  datatype Effect = SavedUpload(path: string) | WroteResult(path: string)
}
