/**
 * The post editor (client/src/pages/CreatePost.tsx): a form of optional
 * fields, an image upload whose callbacks set the progress and error fields,
 * text generation that fills in the content, and publishing.
 */
module CreatePost {
  import opened Common

  /** `formData`: every field is absent until its input changes. */
  datatype PostForm = PostForm(title: Option<string>, category: Option<string>, image: Option<string>, content: Option<string>)

  /** The JSON body of the publish reply: `message` on failure, the new post's `slug` on success. */
  datatype PublishReply = PublishReply(message: string, slug: string)

  const EmptyForm := PostForm(None, None, None, None)
  const SelectImage := "Please select an image"
  const UploadFailedMessage := "Image upload failed"
  const NeedTitleAndCategory := "Please enter title and category first."
  const GenerationFailed := "Failed to generate content."
  const PublishFailed := "Something went wrong"
  const PostPathPrefix := "/post/"

  /** Text generation may run only when both `title` and `category` are truthy. */
  predicate CanGenerate(form: PostForm) {
    Truthy(form.title) && Truthy(form.category)
  }

  /**
   * The form after a generation reply: a truthy generated text replaces the
   * content and nothing else; a missing or empty one changes nothing.
   */
  function WithGenerated(form: PostForm, text: Option<string>): (r: PostForm)
    ensures r.title == form.title && r.category == form.category && r.image == form.image
    ensures Truthy(text) ==> r.content == text
    ensures !Truthy(text) ==> r == form
  {
    if Truthy(text) then form.(content := text) else form
  }

  class CreatePostPage {
    var file: Option<FileRef>
    var imageUploadProgress: Option<string>
    var imageUploadError: Option<string>
    var formData: PostForm
    var publishError: Option<string>

    constructor ()
      ensures file == None && imageUploadProgress == None && imageUploadError == None
      ensures formData == EmptyForm && publishError == None
    {
      file := None;
      imageUploadProgress := None;
      imageUploadError := None;
      formData := EmptyForm;
      publishError := None;
    }

    /** The upload button is disabled while a progress value is shown. */
    predicate UploadDisabled()
      reads this
    {
      imageUploadProgress.Some?
    }

    /** The title input: only `title` changes. */
    method SetTitle(title: string)
      modifies this`formData
      ensures formData == old(formData).(title := Some(title))
    {
      formData := formData.(title := Some(title));
    }

    /** The category select: only `category` changes. */
    method SetCategory(category: string)
      modifies this`formData
      ensures formData == old(formData).(category := Some(category))
    {
      formData := formData.(category := Some(category));
    }

    /** The rich-text editor: only `content` changes. */
    method SetContent(content: string)
      modifies this`formData
      ensures formData == old(formData).(content := Some(content))
    {
      formData := formData.(content := Some(content));
    }

    /** The file input: the first picked file, or none. */
    method SetFile(picked: Option<FileRef>)
      modifies this`file
      ensures file == picked
    {
      file := picked;
    }

    /**
     * `handleUploadImage`: with no file it reports "Please select an image"
     * and starts nothing; otherwise it clears the error and starts the
     * upload. `sdkThrows` stands for the storage SDK throwing while the
     * upload is being set up. Returns whether an upload was started.
     */
    method HandleUploadImage(sdkThrows: bool) returns (started: bool)
      modifies this`imageUploadError, this`imageUploadProgress
      ensures started <==> file.Some? && !sdkThrows
      ensures file.None? ==> imageUploadError == Some(SelectImage) && imageUploadProgress == old(imageUploadProgress)
      ensures file.Some? && sdkThrows ==> imageUploadError == Some(UploadFailedMessage) && imageUploadProgress == None
      ensures started ==> imageUploadError == None && imageUploadProgress == old(imageUploadProgress)
    {
      if file.None? {
        imageUploadError := Some(SelectImage);
        return false;
      }
      imageUploadError := None;
      if sdkThrows {
        imageUploadError := Some(UploadFailedMessage);
        imageUploadProgress := None;
        return false;
      }
      started := true;
    }

    /** The progress callback; the percentage text is computed in floating point, so it is a parameter. */
    method UploadProgressed(percent: string)
      modifies this`imageUploadProgress
      ensures imageUploadProgress == Some(percent)
      ensures UploadDisabled()
    {
      imageUploadProgress := Some(percent);
    }

    /** The error callback: reports the failure and clears the progress. */
    method UploadFailed()
      modifies this`imageUploadError, this`imageUploadProgress
      ensures imageUploadError == Some(UploadFailedMessage) && imageUploadProgress == None
      ensures !UploadDisabled()
    {
      imageUploadError := Some(UploadFailedMessage);
      imageUploadProgress := None;
    }

    /** The completion callback: clears progress and error and stores the image URL, keeping the other fields. */
    method UploadSucceeded(downloadUrl: string)
      modifies this`imageUploadError, this`imageUploadProgress, this`formData
      ensures imageUploadProgress == None && imageUploadError == None
      ensures formData == old(formData).(image := Some(downloadUrl))
      ensures !UploadDisabled()
    {
      imageUploadProgress := None;
      imageUploadError := None;
      formData := formData.(image := Some(downloadUrl));
    }

    /**
     * `handleGenerateAIContent`: without a title and a category it alerts
     * and sends nothing; otherwise the reply's generated text (absent when
     * the reply has no `choices[0].message.content`) goes through
     * `WithGenerated`. The reply's `ok` flag is not consulted.
     */
    method HandleGenerateAIContent(reply: Response<Option<string>>) returns (requested: bool, alert: Option<string>)
      modifies this`formData
      ensures requested <==> CanGenerate(old(formData))
      ensures !requested ==> alert == Some(NeedTitleAndCategory) && formData == old(formData)
      ensures requested && reply.Threw? ==> alert == Some(GenerationFailed) && formData == old(formData)
      ensures requested && reply.Replied? ==> formData == WithGenerated(old(formData), reply.data)
      ensures requested && reply.Replied? ==> (alert.Some? <==> !Truthy(reply.data))
      ensures alert.Some? ==> formData == old(formData)
    {
      if !Truthy(formData.title) || !Truthy(formData.category) {
        return false, Some(NeedTitleAndCategory);
      }
      requested := true;
      match reply {
        case Threw(_) =>
          alert := Some(GenerationFailed);
        case Replied(_, text) =>
          if !Truthy(text) {
            alert := Some(GenerationFailed);
          } else {
            alert := None;
            formData := WithGenerated(formData, text);
          }
      }
    }

    /**
     * `handleSubmit`: a reply that is not ok shows its message, a thrown
     * request shows "Something went wrong", and an ok reply clears the
     * error and navigates to the new post. Returns where it navigated.
     */
    method HandleSubmit(response: Response<PublishReply>) returns (navigateTo: Option<string>)
      modifies this`publishError
      ensures response.Replied? && !response.ok ==> publishError == Some(response.data.message) && navigateTo == None
      ensures response.Replied? && response.ok ==>
        publishError == None && navigateTo == Some(PostPathPrefix + response.data.slug)
      ensures response.Threw? ==> publishError == Some(PublishFailed) && navigateTo == None
    {
      match response {
        case Threw(_) =>
          publishError := Some(PublishFailed);
          navigateTo := None;
        case Replied(ok, data) =>
          if !ok {
            publishError := Some(data.message);
            navigateTo := None;
          } else {
            publishError := None;
            navigateTo := Some(PostPathPrefix + data.slug);
          }
      }
    }
  }
}
