/**
 * The camera screen's two ways to a preview: picking a picture from the
 * gallery, and taking one with the camera. Each uploads the picture,
 * records it in the photo collection and opens the preview route. The
 * picker, the camera, Storage and Firestore are replaced by their
 * outcomes; the screen's state is the loading flag, the route navigated
 * to, and whether a listener threw (which ends the app). Each handler takes
 * the alphabet `toBase64` encodes with: `Standard` is the app as written,
 * under which a route whose encoding holds '/' throws in `navigate`;
 * `UrlSafe` is the correction, under which that never happens.
 */
module Camera {
  import opened Wrappers
  import opened Base64
  import opened Navigation

  /** The upload of the picture: failed, or succeeded with a download URL. */
  datatype Upload = UploadFailed | Uploaded(downloadUrl: string)

  /** The write of the photo document: succeeded, or failed with its exception's message. */
  datatype Write = Written | WriteFailed(message: Option<string>)

  /**
   * The failure listeners first test whether the message mentions
   * "PERMISSION_DENIED" and force the nullable answer with `!!`, so a
   * failure without a message throws there.
   */
  predicate ListenerThrows(write: Write) {
    write.WriteFailed? && write.message.None?
  }

  class CameraScreen {
    var isLoading: bool
    var navigatedTo: Option<string>
    var crashed: bool

    constructor ()
      ensures !isLoading && navigatedTo == None && !crashed
    {
      isLoading, navigatedTo, crashed := false, None, false;
    }

    /**
     * Ending the loading and navigating to the preview, as both listeners
     * of the gallery path and the completion listener of the capture path
     * do. `navigate` throws when no destination matches the route, and the
     * throw inside a listener ends the app.
     */
    method OpenPreviewRoute(a: Alphabet, uri: string, downloadUrl: string)
      modifies this
      ensures !isLoading
      ensures var route := PreviewRoute(a, uri, downloadUrl);
              if ParsePreviewRoute(route).Some?
              then navigatedTo == Some(route) && crashed == old(crashed)
              else navigatedTo == old(navigatedTo) && crashed
    {
      isLoading := false;
      var route := PreviewRoute(a, uri, downloadUrl);
      if ParsePreviewRoute(route).Some? {
        navigatedTo := Some(route);
      } else {
        crashed := true;
      }
    }

    /**
     * The gallery picker's result. No picture changes nothing. Otherwise
     * loading starts; reading the bitmap may throw, and the upload may
     * fail, both ending the loading. After an upload the preview route is
     * opened whether or not the photo document was written, unless a
     * failure without a message crashes the failure listener first.
     */
    method GalleryResult(a: Alphabet, uri: Option<string>, bitmap: Result<()>, upload: Upload, write: Write)
      modifies this
      ensures uri.None? ==> isLoading == old(isLoading) && navigatedTo == old(navigatedTo) && crashed == old(crashed)
      ensures uri.Some? && (bitmap.Err? || upload.UploadFailed?) ==>
                !isLoading && navigatedTo == old(navigatedTo) && crashed == old(crashed)
      ensures uri.Some? && bitmap.Ok? && upload.Uploaded? && !ListenerThrows(write) ==>
                var route := PreviewRoute(a, uri.value, upload.downloadUrl);
                !isLoading
                && (if ParsePreviewRoute(route).Some?
                    then navigatedTo == Some(route) && crashed == old(crashed)
                    else navigatedTo == old(navigatedTo) && crashed)
      ensures uri.Some? && bitmap.Ok? && upload.Uploaded? && ListenerThrows(write) ==>
                crashed && isLoading && navigatedTo == old(navigatedTo)
    {
      if uri.None? {
        return;
      }
      isLoading := true;
      if bitmap.Err? {
        isLoading := false;
        return;
      }
      match upload {
        case UploadFailed =>
          isLoading := false;
        case Uploaded(downloadUrl) =>
          if ListenerThrows(write) {
            crashed := true;
          } else {
            OpenPreviewRoute(a, uri.value, downloadUrl);
          }
      }
    }

    /**
     * The capture button. Loading starts at once; a capture error is only
     * logged, so loading stays on. A captured picture is saved under
     * `savedUri` and uploaded; once the photo-document write completes,
     * the completion listener opens the preview route, unless the failure
     * listener threw first.
     */
    method CaptureResult(a: Alphabet, captured: bool, savedUri: string, upload: Upload, write: Write)
      modifies this
      ensures !captured ==> isLoading && navigatedTo == old(navigatedTo) && crashed == old(crashed)
      ensures captured && upload.UploadFailed? ==>
                !isLoading && navigatedTo == old(navigatedTo) && crashed == old(crashed)
      ensures captured && upload.Uploaded? && !ListenerThrows(write) ==>
                var route := PreviewRoute(a, savedUri, upload.downloadUrl);
                !isLoading
                && (if ParsePreviewRoute(route).Some?
                    then navigatedTo == Some(route) && crashed == old(crashed)
                    else navigatedTo == old(navigatedTo) && crashed)
      ensures captured && upload.Uploaded? && ListenerThrows(write) ==>
                crashed && isLoading && navigatedTo == old(navigatedTo)
    {
      isLoading := true;
      if !captured {
        return;
      }
      match upload {
        case UploadFailed =>
          isLoading := false;
        case Uploaded(downloadUrl) =>
          if ListenerThrows(write) {
            crashed := true;
          } else {
            OpenPreviewRoute(a, savedUri, downloadUrl);
          }
      }
    }
  }
}
