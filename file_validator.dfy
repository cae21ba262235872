/** The client-side checks on a chosen file
    (frontend/src/app/utils/file-validator.util.ts), with the upload limits
    of frontend/src/app/constants/admin.constants.ts:17-20. */
module FileValidator {
  import opened Text
  import Handlers

  /** What the browser reports of a chosen file. */
  datatype File = File(mimeType: string, size: int)

  datatype ValidationResult = ValidationResult(isValid: bool, error: Option<string>)

  const MaxSizeMb := 5
  const MaxSizeBytes := 5 * 1024 * 1024
  const SupportedImageTypes := ["image/jpeg", "image/jpg", "image/png", "image/webp"]
  const SupportedVideoTypes := ["video/mp4", "video/webm", "video/ogg"]
  /** Ten times the image limit. */
  const MaxVideoSize := MaxSizeBytes * 10

  const ImageOnly := "Chỉ chấp nhận file hình ảnh"
  const ImageFormats := "Chỉ hỗ trợ định dạng JPG, PNG, WEBP"
  const ImageTooLarge := "File không được lớn hơn " + NatToDecimal(MaxSizeMb) + "MB"
  const VideoOnly := "Chỉ chấp nhận file video"
  const VideoFormats := "Chỉ hỗ trợ định dạng MP4, WebM, OGG"
  const VideoTooLarge := "File video không được lớn hơn 50MB"
  const MediaOnly := "Chỉ chấp nhận file hình ảnh hoặc video"

  function Invalid(error: string): ValidationResult {
    ValidationResult(false, Some(error))
  }

  const Valid := ValidationResult(true, None)

  /** `validateImage`: the type, then the format, then the size; the first
      failure is the answer. */
  function ValidateImage(f: File): (r: ValidationResult)
    ensures r.isValid <==> r.error.None?
    ensures r.isValid <==> StartsWith(f.mimeType, "image/") && f.mimeType in SupportedImageTypes && f.size <= MaxSizeBytes
    ensures !StartsWith(f.mimeType, "image/") ==> r.error == Some(ImageOnly)
    ensures StartsWith(f.mimeType, "image/") && f.mimeType !in SupportedImageTypes ==> r.error == Some(ImageFormats)
    ensures f.mimeType in SupportedImageTypes && f.size > MaxSizeBytes ==> r.error == Some(ImageTooLarge)
  {
    if !StartsWith(f.mimeType, "image/") then Invalid(ImageOnly)
    else if f.mimeType !in SupportedImageTypes then Invalid(ImageFormats)
    else if f.size > MaxSizeBytes then Invalid(ImageTooLarge)
    else Valid
  }

  /** `validateVideo`: the same three checks against the video list and a
      limit ten times larger. */
  function ValidateVideo(f: File): (r: ValidationResult)
    ensures r.isValid <==> r.error.None?
    ensures r.isValid <==> StartsWith(f.mimeType, "video/") && f.mimeType in SupportedVideoTypes && f.size <= MaxVideoSize
    ensures !StartsWith(f.mimeType, "video/") ==> r.error == Some(VideoOnly)
    ensures StartsWith(f.mimeType, "video/") && f.mimeType !in SupportedVideoTypes ==> r.error == Some(VideoFormats)
    ensures f.mimeType in SupportedVideoTypes && f.size > MaxVideoSize ==> r.error == Some(VideoTooLarge)
  {
    if !StartsWith(f.mimeType, "video/") then Invalid(VideoOnly)
    else if f.mimeType !in SupportedVideoTypes then Invalid(VideoFormats)
    else if f.size > MaxVideoSize then Invalid(VideoTooLarge)
    else Valid
  }

  /** `validateMedia`: images and videos by their own rules, anything else refused. */
  function ValidateMedia(f: File): (r: ValidationResult)
    ensures StartsWith(f.mimeType, "image/") ==> r == ValidateImage(f)
    ensures !StartsWith(f.mimeType, "image/") && StartsWith(f.mimeType, "video/") ==> r == ValidateVideo(f)
    ensures !StartsWith(f.mimeType, "image/") && !StartsWith(f.mimeType, "video/") ==> r == Invalid(MediaOnly)
  {
    if StartsWith(f.mimeType, "image/") then ValidateImage(f)
    else if StartsWith(f.mimeType, "video/") then ValidateVideo(f)
    else Invalid(MediaOnly)
  }

  /** A media file passes exactly when it is a supported image within 5 MiB
      or a supported video within 50 MiB. */
  lemma MediaAccepted(f: File)
    ensures ValidateMedia(f).isValid <==>
      (f.mimeType in SupportedImageTypes && f.size <= MaxSizeBytes)
      || (f.mimeType in SupportedVideoTypes && f.size <= MaxVideoSize)
  {
    if f.mimeType in SupportedImageTypes {
      assert StartsWith(f.mimeType, "image/");
    } else if f.mimeType in SupportedVideoTypes {
      assert StartsWith(f.mimeType, "video/");
      assert !StartsWith(f.mimeType, "image/") by {
        assert f.mimeType[..6] != "image/";
      }
    }
  }

  /** GIF is not among the supported images, while a file of exactly 5 MiB is
      still accepted. */
  lemma ImageEdges()
    ensures !ValidateImage(File("image/gif", 10)).isValid
    ensures ValidateImage(File("image/gif", 10)).error == Some(ImageFormats)
    ensures ValidateImage(File("image/png", 5 * 1024 * 1024)).isValid
    ensures ValidateImage(File("image/png", 5 * 1024 * 1024 + 1)).error == Some(ImageTooLarge)
  {
    assert StartsWith("image/gif", "image/");
    assert StartsWith("image/png", "image/");
  }

  /** Every image the browser lets through is one the server's homepage-media
      check accepts as well, with the same size limit. */
  lemma AcceptedImagesAcceptedByServer(f: File)
    requires ValidateImage(f).isValid
    ensures f.mimeType in Handlers.AllowedMediaTypes("images")
    ensures f.size <= Handlers.MaxMediaSize("images")
  {
  }

  /** An Ogg video passes the browser's check but not the server's list of
      video types. */
  lemma OggVideoRefusedByServer()
    ensures ValidateVideo(File("video/ogg", 1024)).isValid
    ensures "video/ogg" !in Handlers.AllowedMediaTypes("videos")
  {
    assert StartsWith("video/ogg", "video/");
  }
}
