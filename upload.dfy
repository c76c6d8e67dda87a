/** The file check both browser scripts run before reading an image
    (`handleFile` in `public/renderer.js` and `public/renderer_backup.js`). */
module Upload {
  import opened Wrappers

  /** 10 MB, as `10 * 1024 * 1024`. */
  const MAX_BYTES: nat := 10 * 1024 * 1024
  const IMAGE_PREFIX := "image/"
  const NOT_AN_IMAGE := "请选择一个有效的图片文件 (JPG, PNG, GIF等)"
  const TOO_LARGE := "图片文件太大，请选择小于10MB的图片"

  /** The two properties of a `File` the check reads: its MIME type and its
      size in bytes. */
  datatype File = File(mime: string, size: nat)

  /** Kept for analysis, or refused with the alert shown. */
  datatype Verdict = Accepted | Rejected(alert: string)

  /** No file, or a type outside `image/`, is refused first; then a file
      over 10 MB; exactly 10 MB is still accepted. */
  function AcceptFile(file: Option<File>): (v: Verdict)
    ensures v == Accepted <==> file.Some? && IMAGE_PREFIX <= file.value.mime && file.value.size <= MAX_BYTES
    ensures v == Rejected(NOT_AN_IMAGE) <==> file.None? || !(IMAGE_PREFIX <= file.value.mime)
    ensures v == Rejected(TOO_LARGE) <==> file.Some? && IMAGE_PREFIX <= file.value.mime && file.value.size > MAX_BYTES
  {
    if file.None? || !(IMAGE_PREFIX <= file.value.mime) then Rejected(NOT_AN_IMAGE)
    else if file.value.size > MAX_BYTES then Rejected(TOO_LARGE)
    else Accepted
  }

  /** The limit is inclusive: 10 485 760 bytes pass, one byte more does not,
      and a non-image is refused whatever its size. */
  lemma LimitIsInclusive(mime: string)
    requires IMAGE_PREFIX <= mime
    ensures AcceptFile(Some(File(mime, 10485760))) == Accepted
    ensures AcceptFile(Some(File(mime, 10485761))) == Rejected(TOO_LARGE)
    ensures AcceptFile(Some(File("text/plain", 0))) == Rejected(NOT_AN_IMAGE)
  {
    assert !(IMAGE_PREFIX <= "text/plain") by { assert "text/plain"[0] != IMAGE_PREFIX[0]; }
  }
}
