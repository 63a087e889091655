/** The state of the `Home` page and its handlers. Each React state variable
    is a field; each handler is a method. `generatePolaroid` awaits the
    render route, so it is two methods: what happens before the `await`
    (`StartGeneration`) and what happens once the reply is in
    (`CompleteGeneration`); other handlers may run in between. */
module HomePage {
  import opened JsText
  import RenderProxy

  const DefaultBackgroundColor := "#f5f5f4"
  const DefaultCaptionColor := "#1a1a1a"
  const GenerationFailed := "Failed to generate polaroid"
  const FileReadFailed := "Failed to read file"

  /** A generated polaroid. `image` is None when the reply carried no
      `image` field (`data.image` is then `undefined`). */
  datatype Photo = Photo(id: int, image: Option<string>)

  /** What the browser's request to the render route gave: a failure of
      `fetch` or of `response.json()`, with the error's message, or the
      route's JSON response. */
  datatype Reply = Failed(message: string) | Delivered(result: RenderProxy.HttpResult)

  /** `prev.filter((_, i) => i !== index)`, built up element by element. */
  function WithoutIndex<T>(s: seq<T>, index: int): (r: seq<T>)
    ensures |r| == if 0 <= index < |s| then |s| - 1 else |s|
    decreases |s|
  {
    if s == [] then []
    else WithoutIndex(s[..|s| - 1], index) + (if |s| - 1 != index then [s[|s| - 1]] else [])
  }

  /** Filtering out position `index` deletes exactly that element when it
      exists, keeping the others in order, and changes nothing otherwise. */
  lemma {:induction false} WithoutIndexDeletes<T>(s: seq<T>, index: int)
    ensures 0 <= index < |s| ==> WithoutIndex(s, index) == s[..index] + s[index + 1..]
    ensures !(0 <= index < |s|) ==> WithoutIndex(s, index) == s
    decreases |s|
  {
    if s != [] {
      var init := s[..|s| - 1];
      WithoutIndexDeletes(init, index);
      if 0 <= index < |s| - 1 {
        assert init[..index] + init[index + 1..] + [s[|s| - 1]] == s[..index] + s[index + 1..];
      } else if index == |s| - 1 {
        assert s[..index] + s[index + 1..] == init;
      } else {
        assert init + [s[|s| - 1]] == s;
      }
    }
  }

  /** The message `generatePolaroid` shows when the route answered with a
      status that is not ok: `data.error || "Failed to generate polaroid"`. */
  function ReplyError(body: RenderProxy.ClientBody): (msg: string)
    ensures msg != ""
    ensures body.ErrorBody? && body.error != "" ==> msg == body.error
    ensures !(body.ErrorBody? && body.error != "") ==> msg == GenerationFailed
  {
    if body.ErrorBody? && body.error != "" then body.error else GenerationFailed
  }

  /** `data.image` of the route's JSON response. */
  function ReplyImage(body: RenderProxy.ClientBody): (image: Option<string>)
    ensures image.Some? <==> body.ImageBody?
    ensures body.ImageBody? ==> image == Some(body.image)
  {
    if body.ImageBody? then Some(body.image) else None
  }

  class Home {
    var photos: seq<Photo>
    var isProcessing: bool
    var error: Option<string>
    var caption: string
    var backgroundColor: string
    var captionColor: string
    var previewImage: Option<string>

    /** The initial values of the page's `useState` hooks. */
    constructor ()
      ensures photos == [] && !isProcessing && error == None
      ensures caption == "" && backgroundColor == DefaultBackgroundColor && captionColor == DefaultCaptionColor
      ensures previewImage == None
    {
      photos := [];
      isProcessing := false;
      error := None;
      caption := "";
      backgroundColor := DefaultBackgroundColor;
      captionColor := DefaultCaptionColor;
      previewImage := None;
    }

    /** `photos.length > 0 || isProcessing`: the grid column is shown. */
    function ShowTwoColumns(): bool
      reads this
    {
      |photos| > 0 || isProcessing
    }

    /** `handleFileSelect`: the file's data URL becomes the preview, or the
        read failed (`read` is None) and an error is shown. */
    method SelectFile(read: Option<string>)
      modifies this`previewImage, this`error
      ensures read.Some? ==> previewImage == read && error == old(error)
      ensures read.None? ==> previewImage == old(previewImage) && error == Some(FileReadFailed)
    {
      if read.Some? {
        previewImage := read;
      } else {
        error := Some(FileReadFailed);
      }
    }

    /** `handleCameraCapture`: the captured frame becomes the preview. */
    method CaptureFromCamera(dataUrl: string)
      modifies this`previewImage
      ensures previewImage == Some(dataUrl)
    {
      previewImage := Some(dataUrl);
    }

    /** `onClearPreview`. */
    method ClearPreview()
      modifies this`previewImage
      ensures previewImage == None
    {
      previewImage := None;
    }

    /** The caption and colour inputs of the upload form. */
    method SetStyle(newCaption: string, newBackground: string, newCaptionColor: string)
      modifies this`caption, this`backgroundColor, this`captionColor
      ensures caption == newCaption && backgroundColor == newBackground && captionColor == newCaptionColor
    {
      caption, backgroundColor, captionColor := newCaption, newBackground, newCaptionColor;
    }

    /** The part of `generatePolaroid` before its `await`: processing starts,
        the error is cleared and the route is sent the image with the current
        caption and colours, unchanged. */
    method StartGeneration(imageData: string) returns (request: RenderProxy.RenderRequest)
      modifies this`isProcessing, this`error
      ensures isProcessing && error == None
      ensures request == RenderProxy.RenderRequest(Some(imageData), Some(caption), Some(backgroundColor), Some(captionColor))
    {
      isProcessing := true;
      error := None;
      request := RenderProxy.RenderRequest(Some(imageData), Some(caption), Some(backgroundColor), Some(captionColor));
    }

    /** The part of `generatePolaroid` after its `await`: on an ok reply the
        new photo is put in front of the current photos; otherwise the error
        is set and the photos stay as they are. Processing ends on every
        path. `id` stands for `Date.now()`. */
    method CompleteGeneration(reply: Reply, id: int)
      modifies this`photos, this`isProcessing, this`error
      ensures !isProcessing
      ensures reply.Failed? ==> photos == old(photos) && error == Some(reply.message)
      ensures reply.Delivered? && !RenderProxy.IsOk(reply.result.status) ==>
                photos == old(photos) && error == Some(ReplyError(reply.result.body))
      ensures reply.Delivered? && RenderProxy.IsOk(reply.result.status) ==>
                photos == [Photo(id, ReplyImage(reply.result.body))] + old(photos) && error == old(error)
    {
      if reply.Failed? {
        error := Some(reply.message);
      } else if !RenderProxy.IsOk(reply.result.status) {
        error := Some(ReplyError(reply.result.body));
      } else {
        photos := [Photo(id, ReplyImage(reply.result.body))] + photos;
      }
      isProcessing := false;
    }

    /** `handleGenerate`: nothing happens without a preview; otherwise a
        generation of the preview image starts. */
    method HandleGenerate() returns (request: Option<RenderProxy.RenderRequest>)
      modifies this`isProcessing, this`error
      ensures !Truthy(old(previewImage)) ==> request == None && isProcessing == old(isProcessing) && error == old(error)
      ensures Truthy(old(previewImage)) ==> isProcessing && error == None
      ensures Truthy(old(previewImage)) ==>
                request == Some(RenderProxy.RenderRequest(previewImage, Some(caption), Some(backgroundColor), Some(captionColor)))
    {
      if Truthy(previewImage) {
        var r := StartGeneration(previewImage.value);
        request := Some(r);
      } else {
        request := None;
      }
    }

    /** `handleRemovePhoto(index)`. */
    method RemovePhoto(index: int)
      modifies this`photos
      ensures photos == WithoutIndex(old(photos), index)
      ensures 0 <= index < |old(photos)| ==> photos == old(photos)[..index] + old(photos)[index + 1..]
      ensures !(0 <= index < |old(photos)|) ==> photos == old(photos)
    {
      WithoutIndexDeletes(photos, index);
      photos := WithoutIndex(photos, index);
    }
  }

  /** A reply the render route produced is ok exactly when it carries an
      image, so a photo added from such a reply always has one. */
  lemma RouteReplyAddsImage(body: RenderProxy.InboundBody, cfg: RenderProxy.Config, outcome: RenderProxy.ProviderOutcome)
    ensures var r := RenderProxy.Post(body, cfg, outcome).result;
            RenderProxy.IsOk(r.status) ==> ReplyImage(r.body).Some?
  {
  }
}
