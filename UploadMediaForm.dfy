/**
 * The media upload form (`app/component/UploadMediaForm.tsx`): a title, an
 * image/video switch, the selected file with its MIME-type check, a
 * preview, an error line, and the `onUpload` calls it makes.
 */
module UploadMediaForms {
  import opened Wrappers
  import opened Text

  datatype MediaType = Image | Video

  /** The literal `"image"` or `"video"`, as interpolated into the messages. */
  function TypeName(t: MediaType): string {
    match t
    case Image => "image"
    case Video => "video"
  }

  /** The MIME-type prefix a file of this media type must carry. */
  function MimePrefix(t: MediaType): string {
    TypeName(t) + "/"
  }

  /** A browser `File`: its name and its MIME `type`. */
  datatype File = File(name: string, mimeType: string)

  /** `onUpload`'s argument `{ title, type, file }`. */
  datatype Upload = Upload(title: string, mediaType: MediaType, file: File)

  const TitleRequired: string := "Title is required"

  function InvalidFileMessage(t: MediaType): string {
    "Please select a valid " + TypeName(t) + " file"
  }

  function MissingFileMessage(t: MediaType): string {
    "Please select a " + TypeName(t) + " file"
  }

  /** `isValidImage || isValidVideo` for the current media type. */
  predicate FileAccepted(t: MediaType, f: File) {
    || (t == Image && StartsWith(f.mimeType, "image/"))
    || (t == Video && StartsWith(f.mimeType, "video/"))
  }

  /** A file is accepted exactly when its MIME type starts with the current
      type's prefix, and no file is accepted for both types. */
  lemma FileAcceptedIffPrefix(t: MediaType, f: File)
    ensures FileAccepted(t, f) <==> StartsWith(f.mimeType, MimePrefix(t))
    ensures !(FileAccepted(Image, f) && FileAccepted(Video, f))
  {
  }

  /** The message `handleSubmit` sets, or None when the upload goes ahead:
      the title is checked before the file. */
  function UploadError(title: string, t: MediaType, file: Option<File>): (r: Option<string>)
    ensures r == None <==> !IsBlank(title) && file.Some?
    ensures IsBlank(title) ==> r == Some(TitleRequired)
    ensures !IsBlank(title) && file.None? ==> r == Some(MissingFileMessage(t))
  {
    if IsBlank(title) then Some(TitleRequired)
    else if file.None? then Some(MissingFileMessage(t))
    else None
  }

  class UploadMediaForm {
    var title: string
    var mediaType: MediaType
    var file: Option<File>
    var error: string
    /** The image preview: an opaque data URL, or "" for none. */
    var preview: string
    /** The arguments of every `onUpload` call, oldest first. */
    var uploads: seq<Upload>

    /** A selected file always suits the current media type. */
    ghost predicate Valid()
      reads this
    {
      file.Some? ==> FileAccepted(mediaType, file.value)
    }

    constructor ()
      ensures Valid()
      ensures title == "" && mediaType == Image && file == None
      ensures error == "" && preview == "" && uploads == []
    {
      title, mediaType, file := "", Image, None;
      error, preview := "", "";
      uploads := [];
    }

    /** The title input's `onChange`. */
    method SetTitle(value: string)
      requires Valid()
      modifies this
      ensures Valid()
      ensures title == value
      ensures mediaType == old(mediaType) && file == old(file)
      ensures error == old(error) && preview == old(preview) && uploads == old(uploads)
    {
      title := value;
    }

    /** `handleFileChange` with the first selected file, if any. For an
        accepted image the preview is left to the asynchronous reader. */
    method HandleFileChange(selected: Option<File>)
      requires Valid()
      modifies this
      ensures Valid()
      ensures title == old(title) && mediaType == old(mediaType) && uploads == old(uploads)
      ensures selected.None? ==> file == None && preview == "" && error == ""
      ensures selected.Some? && FileAccepted(mediaType, selected.value) ==>
                && file == selected && error == ""
                && preview == (if mediaType == Video then "" else old(preview))
      ensures selected.Some? && !FileAccepted(mediaType, selected.value) ==>
                file == None && preview == "" && error == InvalidFileMessage(mediaType)
    {
      error := "";
      if selected.None? {
        file := None;
        preview := "";
        return;
      }
      var isValidImage := mediaType == Image && StartsWith(selected.value.mimeType, "image/");
      var isValidVideo := mediaType == Video && StartsWith(selected.value.mimeType, "video/");
      if !isValidImage && !isValidVideo {
        error := InvalidFileMessage(mediaType);
        file := None;
        preview := "";
        return;
      }
      file := selected;
      if mediaType != Image {
        preview := "";
      }
    }

    /** Either media-type button: switch the type and drop the file, the
        preview and the error; the title is kept. */
    method SelectMediaType(t: MediaType)
      requires Valid()
      modifies this
      ensures Valid()
      ensures mediaType == t && file == None && preview == "" && error == ""
      ensures title == old(title) && uploads == old(uploads)
    {
      mediaType := t;
      file := None;
      preview := "";
      error := "";
    }

    /** `handleSubmit`: on success `onUpload` gets the title, the type and
        the file, and title, file and preview are reset; the type is kept. */
    method HandleSubmit()
      requires Valid()
      modifies this
      ensures Valid()
      ensures mediaType == old(mediaType)
      ensures UploadError(old(title), mediaType, old(file)).Some? ==>
                && error == UploadError(old(title), mediaType, old(file)).value
                && title == old(title) && file == old(file)
                && preview == old(preview) && uploads == old(uploads)
      ensures UploadError(old(title), mediaType, old(file)) == None ==>
                && error == ""
                && uploads == old(uploads) + [Upload(old(title), mediaType, old(file).value)]
                && title == "" && file == None && preview == ""
    {
      error := "";
      if IsBlank(title) {
        error := TitleRequired;
        return;
      }
      if file.None? {
        error := MissingFileMessage(mediaType);
        return;
      }
      uploads := uploads + [Upload(title, mediaType, file.value)];
      title := "";
      file := None;
      preview := "";
    }
  }
}
