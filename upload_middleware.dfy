/** The video upload filter of backend/src/middlewares/upload-middleware.js:
    multer keeps uploads in memory, refuses files over 50 MiB and lets only
    WebM video through. */
module UploadMiddleware {
  import opened Wrappers

  /** The per-file size limit, in bytes. */
  const MaxFileSize: nat := 50 * 1024 * 1024

  const AllowedMimeTypes: seq<string> := ["video/webm"]

  const BadFormat := ResponseError(400, "Format video tidak valid. Wajib menggunakan format .webm (Realtime Camera).")

  /** What multer knows of a file when it asks the filter. */
  datatype UploadFile = UploadFile(fieldname: string, originalname: string, encoding: string, mimetype: string)

  /** The arguments the filter passes to its callback. */
  datatype Decision = Decision(error: Option<Error>, accept: bool)

  /** `fileFilter(req, file, cb)`. */
  function FileFilter(file: UploadFile): (d: Decision)
    ensures d.accept <==> file.mimetype == "video/webm"
    ensures d.accept ==> d.error.None?
    ensures !d.accept ==> d.error == Some(BadFormat)
  {
    if file.mimetype in AllowedMimeTypes then Decision(None, true) else Decision(Some(BadFormat), false)
  }

  /** The decision depends on the MIME type alone: neither the file name nor
      its field nor its encoding matter. */
  lemma FilterSeesOnlyMimeType(a: UploadFile, b: UploadFile)
    requires a.mimetype == b.mimetype
    ensures FileFilter(a) == FileFilter(b)
  {
  }
}
