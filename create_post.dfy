/**
  client/src/components/CreatePost.jsx: the "create post" dialog.  It holds
  the chosen file and its preview, refuses files over 5 MiB, refuses a
  submit with neither caption nor image, and on success puts the new post at
  the front of the feed and closes.  Reading the file as a data URL and the
  upload are parameters: `dataUrl` is the preview the reader produced and
  `outcome` is what the POST hands back.
 */
module CreatePostDialog {
  import opened Common
  import opened Db
  import opened ClientTypes

  /** The largest accepted file, in bytes: the refusal test
      `size > MaxUploadBytes` is strict, so a file of exactly this size is
      accepted. */
  const MaxUploadBytes := 5 * 1024 * 1024

  datatype ImageFile = ImageFile(name: string, size: nat)

  /** The multipart form sent: the caption as typed and, when a preview
      exists, the file. */
  datatype PostForm = PostForm(caption: string, image: Option<ImageFile>)

  /** `!caption.trim() && !imagePreview`: the submit is refused before any
      request. */
  function SubmitRefused(caption: string, imagePreview: string): (r: bool)
    ensures r <==> IsBlank(caption) && imagePreview == ""
  {
    TrimEmptyIffBlank(caption);
    Trim(caption) == [] && imagePreview == ""
  }

  /** The share button's `disabled`: while loading, or when the submit
      would be refused. */
  function ShareDisabled(loading: bool, caption: string, imagePreview: string): (r: bool)
    ensures r <==> loading || (IsBlank(caption) && imagePreview == "")
    ensures !r ==> !SubmitRefused(caption, imagePreview)
  {
    loading || SubmitRefused(caption, imagePreview)
  }

  class CreatePost {
    var open: bool
    var file: Option<ImageFile>
    var caption: string
    var imagePreview: string
    var loading: bool
    /** `store.post.posts`. */
    var feed: seq<FeedPost>

    constructor (feed: seq<FeedPost>)
      ensures open && file.None? && caption == "" && imagePreview == "" && !loading
      ensures this.feed == feed
    {
      open, file, caption, imagePreview, loading := true, None, "", "", false;
      this.feed := feed;
    }

    method ChangeCaption(value: string)
      modifies this
      ensures caption == value
      ensures open == old(open) && file == old(file) && imagePreview == old(imagePreview)
      ensures loading == old(loading) && feed == old(feed)
    {
      caption := value;
    }

    /** `fileChangeHandler`: no file chosen, or one over the limit, leaves
        file and preview as they were; otherwise both are replaced. */
    method FileChangeHandler(selected: Option<ImageFile>, dataUrl: string) returns (accepted: bool)
      modifies this
      ensures accepted <==> selected.Some? && selected.value.size <= MaxUploadBytes
      ensures accepted ==> file == selected && imagePreview == dataUrl
      ensures !accepted ==> file == old(file) && imagePreview == old(imagePreview)
      ensures open == old(open) && caption == old(caption) && loading == old(loading) && feed == old(feed)
    {
      accepted := false;
      if selected.Some? {
        if selected.value.size > MaxUploadBytes {
          return;
        }
        file := selected;
        imagePreview := dataUrl;
        accepted := true;
      }
    }

    /** `removeImage`. */
    method RemoveImage()
      modifies this
      ensures file.None? && imagePreview == ""
      ensures open == old(open) && caption == old(caption) && loading == old(loading) && feed == old(feed)
    {
      file := None;
      imagePreview := "";
    }

    /** `handleClose`: the dialog closes and the form is emptied. */
    method HandleClose()
      modifies this
      ensures !open && caption == "" && imagePreview == "" && file.None?
      ensures loading == old(loading) && feed == old(feed)
    {
      open := false;
      caption := "";
      imagePreview := "";
      file := None;
    }

    /** `createPostHandler`. */
    method CreatePostHandler(outcome: Outcome<FeedPost>) returns (request: Option<PostForm>)
      modifies this
      ensures old(SubmitRefused(caption, imagePreview)) ==> request.None? && unchanged(this)
      ensures !old(SubmitRefused(caption, imagePreview)) ==>
                && request == Some(PostForm(old(caption), if old(imagePreview) != "" then old(file) else None))
                && !loading
                && (outcome.Success? ==>
                      && feed == [outcome.payload] + old(feed)
                      && !open && caption == "" && imagePreview == "" && file.None?)
                && (!outcome.Success? ==>
                      && feed == old(feed) && open == old(open) && caption == old(caption)
                      && imagePreview == old(imagePreview) && file == old(file))
    {
      if SubmitRefused(caption, imagePreview) {
        return None;
      }
      request := Some(PostForm(caption, if imagePreview != "" then file else None));
      loading := true;
      if outcome.Success? {
        feed := [outcome.payload] + feed;
        HandleClose();
      }
      loading := false;
    }
  }
}
