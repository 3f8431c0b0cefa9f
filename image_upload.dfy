/**
 * The upload control of `src/components/ImageUpload.tsx`: the checks `handleFiles` runs on
 * the first chosen file, the storage path it uploads to, and the `uploading`, `preview`
 * and `dragActive` flags. The uuid, the object URL of the preview and the outcome of the
 * Storage calls are parameters.
 */
module ImageUpload {
  import opened Common
  import opened Strings
  import opened AuthContext

  /** The part of a browser `File` the control reads; `size` is in bytes. */
  datatype File = File(name: string, mimeType: string, size: nat)

  /** The `maxSize` prop's default, in MB. */
  const DefaultMaxSize: int := 10

  /** The three `alert`s the control can raise; `TooLarge` names the limit in MB. */
  datatype Alert = NotAnImage | TooLarge(maxSize: int) | UploadFailed

  const NotAnImageText: string := "Please select an image file."
  const UploadFailedText: string := "Failed to upload image. Please try again."

  /** The byte limit for a `maxSize` given in MB. */
  function MaxBytes(maxSize: int): (bytes: int)
    // the prop counts mebibytes
    ensures bytes == maxSize * 0x10_0000
  {
    maxSize * 1024 * 1024
  }

  /** `file.type.startsWith('image/')`. */
  function IsImageType(mimeType: string): (ok: bool)
    // any `image/*` subtype passes, whatever follows the slash
    ensures ok <==> |mimeType| >= 6 && mimeType[..6] == "image/"
  {
    StartsWith(mimeType, "image/")
  }

  /** Every subtype of `image/` is accepted, and only types that begin with it. */
  lemma ImageSubtypesAccepted(sub: string, other: string)
    requires |other| < 6 || other[5] != '/'
    ensures IsImageType("image/" + sub)
    ensures !IsImageType(other)
  {
    var t := "image/" + sub;
    assert t[..6] == "image/";
  }

  /** The two validations, in order: type first, then size (strictly greater is too large). */
  function CheckFile(file: File, maxSize: int): (alert: Option<Alert>)
    ensures alert.None? <==> IsImageType(file.mimeType) && file.size <= MaxBytes(maxSize)
    ensures alert == Some(NotAnImage) <==> !IsImageType(file.mimeType)
    ensures alert.Some? && alert.value != NotAnImage ==> alert.value == TooLarge(maxSize)
  {
    if !IsImageType(file.mimeType) then Some(NotAnImage)
    else if file.size > MaxBytes(maxSize) then Some(TooLarge(maxSize))
    else None
  }

  /** A file of exactly the limit passes; one byte more does not. */
  lemma SizeLimitIsInclusive(name: string, mimeType: string, maxSize: int)
    requires IsImageType(mimeType) && maxSize >= 0
    ensures CheckFile(File(name, mimeType, MaxBytes(maxSize)), maxSize).None?
    ensures CheckFile(File(name, mimeType, MaxBytes(maxSize) + 1), maxSize) == Some(TooLarge(maxSize))
  {
  }

  /** With the default prop, the limit is 10 MiB. */
  lemma DefaultLimit()
    ensures MaxBytes(DefaultMaxSize) == 10485760
  {
  }

  /** `` `palms/${user.uid}/${uuidv4()}_${file.name}` ``. */
  function StoragePath(uid: string, uuid: string, name: string): (path: string)
    // the user's folder comes first and the file's own name last
    ensures StartsWith(path, "palms/" + uid + "/")
    ensures |path| == |uid| + |uuid| + |name| + 8
    ensures path[|path| - |name|..] == name
  {
    "palms/" + uid + "/" + uuid + "_" + name
  }

  /**
   * The path lies in the user's own folder: split on `/`, its first two segments are
   * `palms` and the uid, and the rest is the split of `<uuid>_<name>`.
   */
  lemma StoragePathOwner(uid: string, uuid: string, name: string)
    requires '/' !in uid
    ensures StartsWith(StoragePath(uid, uuid, name), "palms/" + uid + "/")
    ensures Split(StoragePath(uid, uuid, name), '/') == ["palms", uid] + Split(uuid + "_" + name, '/')
  {
    var tail := uuid + "_" + name;
    var rest := uid + ['/'] + tail;
    StoragePathShape(uid, uuid, name);
    PalmsHasNoSlash();
    SplitAfterSegment("palms", '/', rest);
    SplitAfterSegment(uid, '/', tail);
  }

  lemma StoragePathShape(uid: string, uuid: string, name: string)
    ensures StoragePath(uid, uuid, name) == "palms" + ['/'] + (uid + ['/'] + (uuid + "_" + name))
    ensures StoragePath(uid, uuid, name) == ("palms/" + uid + "/") + (uuid + "_" + name)
  {
    var pre := "palms/";
    assert pre == "palms" + ['/'];
    var sl := "/";
    assert sl == ['/'];
    var u := "_";
    var t := uuid + u + name;
    calc {
      StoragePath(uid, uuid, name);
      pre + uid + sl + uuid + u + name;
      pre + uid + sl + t;
      "palms" + ['/'] + (uid + ['/'] + t);
    }
  }

  lemma PalmsHasNoSlash()
    ensures '/' !in "palms"
  {
    assert "palms" == ['p', 'a', 'l', 'm', 's'];
  }

  /** What a call of `handleFiles` ends in. */
  datatype Outcome =
    | NoAction
    | Rejected(alert: Alert)
    | Uploaded(path: string, downloadUrl: string)
    | Failed(path: string)

  /**
   * The outcome of `handleFiles(files)` for the signed-in `user`: nothing without files or
   * without a user, a rejection by `CheckFile` of the first file, otherwise an upload to
   * the storage path that either succeeds (`uploadOk`) with `downloadUrl` or fails.
   */
  function FilesOutcome(files: Option<seq<File>>, user: Option<AuthUser>, maxSize: int,
                        uuid: string, uploadOk: bool, downloadUrl: string): (o: Outcome)
    ensures o.NoAction? <==> files.None? || |files.value| == 0 || user.None?
    ensures o.Rejected? ==> CheckFile(files.value[0], maxSize) == Some(o.alert)
    ensures (o.Uploaded? || o.Failed?) <==> !o.NoAction? && CheckFile(files.value[0], maxSize).None?
    ensures o.Uploaded? ==> uploadOk && o.downloadUrl == downloadUrl
    ensures o.Uploaded? || o.Failed? ==> o.path == StoragePath(user.value.uid, uuid, files.value[0].name)
    ensures o.Failed? ==> !uploadOk
  {
    if files.None? || |files.value| == 0 || user.None? then NoAction
    else
      var file := files.value[0];
      match CheckFile(file, maxSize)
      case Some(alert) => Rejected(alert)
      case None =>
        var path := StoragePath(user.value.uid, uuid, file.name);
        if uploadOk then Uploaded(path, downloadUrl) else Failed(path)
  }

  /** Only the first file is looked at: the others never change the outcome. */
  lemma OnlyFirstFileMatters(file: File, rest: seq<File>, rest': seq<File>, user: Option<AuthUser>, maxSize: int,
                             uuid: string, uploadOk: bool, downloadUrl: string)
    ensures FilesOutcome(Some([file] + rest), user, maxSize, uuid, uploadOk, downloadUrl)
         == FilesOutcome(Some([file] + rest'), user, maxSize, uuid, uploadOk, downloadUrl)
  {
  }

  /** The upload control with its three state fields; `auth` supplies the signed-in user. */
  class ImageUploader {
    const auth: AuthProvider
    const maxSize: int
    var uploading: bool
    var preview: Option<string>
    var dragActive: bool

    /** `maxSize` is the prop as passed, None when omitted. */
    constructor (auth: AuthProvider, maxSize: Option<int>)
      ensures this.auth == auth && this.maxSize == maxSize.GetOr(DefaultMaxSize)
      ensures !uploading && preview.None? && !dragActive
    {
      this.auth := auth;
      this.maxSize := maxSize.GetOr(DefaultMaxSize);
      uploading := false;
      preview := None;
      dragActive := false;
    }

    /**
     * `handleFiles(files)`. `previewUrl` is what `URL.createObjectURL` returns, `uuid` the
     * generated id, `uploadOk` whether `uploadBytes` and `getDownloadURL` both succeed,
     * and `downloadUrl` what the latter returns. An `Uploaded` outcome is the call of
     * `onImageUpload(downloadUrl)`.
     */
    method HandleFiles(files: Option<seq<File>>, uuid: string, previewUrl: string, uploadOk: bool, downloadUrl: string)
      returns (outcome: Outcome)
      modifies this`uploading, this`preview
      ensures outcome == FilesOutcome(files, auth.user, maxSize, uuid, uploadOk, downloadUrl)
      // early returns touch no flag
      ensures outcome.NoAction? || outcome.Rejected? ==> uploading == old(uploading) && preview == old(preview)
      // an attempted upload always ends with `uploading` false; the preview stays only if it succeeded
      ensures outcome.Uploaded? ==> !uploading && preview == Some(previewUrl)
      ensures outcome.Failed? ==> !uploading && preview.None?
    {
      if files.None? || |files.value| == 0 || auth.user.None? {
        return NoAction;
      }
      var file := files.value[0];
      if !IsImageType(file.mimeType) {
        return Rejected(NotAnImage);
      }
      if file.size > MaxBytes(maxSize) {
        return Rejected(TooLarge(maxSize));
      }
      uploading := true;
      preview := Some(previewUrl);
      var path := StoragePath(auth.user.value.uid, uuid, file.name);
      if uploadOk {
        outcome := Uploaded(path, downloadUrl);
      } else {
        preview := None;
        outcome := Failed(path);
      }
      uploading := false;
    }

    /** `handleDrag`: enter and over raise the highlight, leave drops it, other events keep it. */
    method HandleDrag(eventType: string)
      modifies this`dragActive
      ensures eventType == "dragenter" || eventType == "dragover" ==> dragActive
      ensures eventType == "dragleave" ==> !dragActive
      ensures eventType != "dragenter" && eventType != "dragover" && eventType != "dragleave" ==>
                dragActive == old(dragActive)
    {
      if eventType == "dragenter" || eventType == "dragover" {
        dragActive := true;
      } else if eventType == "dragleave" {
        dragActive := false;
      }
    }

    /** `handleDrop`: the highlight goes off, then the dropped files are handled. */
    method HandleDrop(files: Option<seq<File>>, uuid: string, previewUrl: string, uploadOk: bool, downloadUrl: string)
      returns (outcome: Outcome)
      modifies this`dragActive, this`uploading, this`preview
      ensures !dragActive
      ensures outcome == FilesOutcome(files, auth.user, maxSize, uuid, uploadOk, downloadUrl)
      ensures outcome.NoAction? || outcome.Rejected? ==> uploading == old(uploading) && preview == old(preview)
      ensures outcome.Uploaded? ==> !uploading && preview == Some(previewUrl)
      ensures outcome.Failed? ==> !uploading && preview.None?
    {
      dragActive := false;
      outcome := HandleFiles(files, uuid, previewUrl, uploadOk, downloadUrl);
    }

    /** `clearPreview`, the remove button on the preview. */
    method ClearPreview()
      modifies this`preview
      ensures preview.None?
    {
      preview := None;
    }
  }
}
