/**
  The topic create/edit dialog: incoming topic data is copied with its
  content normalised into a fully populated record, fields are edited one
  at a time, and iframe content is sanity-checked before submission.
 */
module TopicEditor {
  import opened Wrappers
  import opened Text

  const DefaultContentType: string := "external_link"
  const IframeType: string := "iframe"
  const IframeTag: string := "<iframe"

  /** Content as it may arrive: any field can be missing. */
  datatype PartialContent = PartialContent(
    contentType: Option<string>,
    url: Option<string>,
    videoUrl: Option<string>,
    pdfUrl: Option<string>,
    textContent: Option<string>,
    iframeHtml: Option<string>)

  /**
    The `content` of the incoming topic: missing, an object, or a JSON
    string, given here by what `JSON.parse` made of it (None when it threw).
   */
  datatype ContentSource =
    | NoContent
    | Structured(fields: PartialContent)
    | Serialized(parsed: Option<PartialContent>)

  /** Content with every field populated, as the dialog edits it. */
  datatype Content = Content(
    contentType: string,
    url: string,
    videoUrl: string,
    pdfUrl: string,
    textContent: string,
    iframeHtml: string)

  datatype ContentField = ContentType | Url | VideoUrl | PdfUrl | TextContent | IframeHtml

  /** A topic; `C` is the form its content takes. */
  datatype Topic<C> = Topic(
    id: Option<string>,
    name: string,
    topicType: string,
    duration: string,
    description: Option<string>,
    orderIndex: int,
    chapterId: string,
    pdfUrl: Option<string>,
    content: C)

  /** The edits `updateFormData` receives; the order index is `parseInt`'s result (None for NaN). */
  datatype TopicEdit =
    | SetName(name: string)
    | SetType(topicType: string)
    | SetDuration(duration: string)
    | SetDescription(description: string)
    | SetOrderIndex(parsed: Option<int>)

  const DefaultContent: Content := Content(DefaultContentType, "", "", "", "", "")

  function Value(c: Content, f: ContentField): string {
    match f
    case ContentType => c.contentType
    case Url => c.url
    case VideoUrl => c.videoUrl
    case PdfUrl => c.pdfUrl
    case TextContent => c.textContent
    case IframeHtml => c.iframeHtml
  }

  /** The fields a source supplies; a missing or unparsable source supplies none. */
  function Supplied(src: ContentSource): PartialContent {
    match src
    case Structured(p) => p
    case Serialized(Some(p)) => p
    case _ => PartialContent(None, None, None, None, None, None)
  }

  /**
    The normalisation in the initialisation effect: the type defaults to
    `external_link`, and every other field to the empty string.
   */
  function NormalizeContent(src: ContentSource): (r: Content)
    ensures r.contentType != ""
    ensures r.contentType == Or(Supplied(src).contentType, DefaultContentType)
    ensures var p := Supplied(src);
            && r.url == p.url.GetOr("") && r.videoUrl == p.videoUrl.GetOr("")
            && r.pdfUrl == p.pdfUrl.GetOr("") && r.textContent == p.textContent.GetOr("")
            && r.iframeHtml == p.iframeHtml.GetOr("")
  {
    var p := Supplied(src);
    Content(Or(p.contentType, DefaultContentType), Or(p.url, ""), Or(p.videoUrl, ""),
            Or(p.pdfUrl, ""), Or(p.textContent, ""), Or(p.iframeHtml, ""))
  }

  /** String content that fails to parse, and missing content, both become the default content. */
  lemma {:induction false} UnparsableContentIsDefault()
    ensures NormalizeContent(Serialized(None)) == DefaultContent
    ensures NormalizeContent(NoContent) == DefaultContent
  {
  }

  /** Normalising already-normalised content changes nothing. */
  lemma NormalizeIsIdempotent(src: ContentSource)
    ensures var c := NormalizeContent(src);
            NormalizeContent(Structured(PartialContent(Some(c.contentType), Some(c.url), Some(c.videoUrl),
                                                       Some(c.pdfUrl), Some(c.textContent), Some(c.iframeHtml)))) == c
  {
  }

  /** The topic `{...initialData, content: contentData}`. */
  function FromInitial(t: Topic<ContentSource>): (r: Topic<Content>)
    ensures r.id == t.id && r.name == t.name && r.topicType == t.topicType && r.duration == t.duration
    ensures r.description == t.description && r.orderIndex == t.orderIndex
    ensures r.chapterId == t.chapterId && r.pdfUrl == t.pdfUrl
    ensures r.content == NormalizeContent(t.content)
  {
    Topic(t.id, t.name, t.topicType, t.duration, t.description, t.orderIndex, t.chapterId, t.pdfUrl,
          NormalizeContent(t.content))
  }

  /** The blank topic a new dialog starts from, in the chapter it was opened for. */
  function DefaultTopic(chapterId: string): (r: Topic<Content>)
    ensures r.chapterId == chapterId && r.content == DefaultContent
    ensures r.id.None? && r.name == "" && r.topicType == "video" && r.orderIndex == 0
  {
    Topic(None, "", "video", "", Some(""), 0, chapterId, None, DefaultContent)
  }

  /**
    `updateContentData(field, value)`: the named field takes the value; the
    type is kept (an empty one becomes `external_link`) unless it is the
    field being set; every other field is kept.
   */
  function UpdateContent(c: Content, field: ContentField, value: string): (r: Content)
    ensures Value(r, field) == value
    ensures forall f :: f != field && f != ContentType ==> Value(r, f) == Value(c, f)
    ensures field != ContentType ==> r.contentType == Or(Some(c.contentType), DefaultContentType)
  {
    var kept := c.(contentType := Or(Some(c.contentType), DefaultContentType));
    match field
    case ContentType => c.(contentType := value)
    case Url => kept.(url := value)
    case VideoUrl => kept.(videoUrl := value)
    case PdfUrl => kept.(pdfUrl := value)
    case TextContent => kept.(textContent := value)
    case IframeHtml => kept.(iframeHtml := value)
  }

  /** `updateFormData(field, value)`; a non-numeric order index is stored as 0. */
  function UpdateTopic(t: Topic<Content>, e: TopicEdit): (r: Topic<Content>)
    ensures r.id == t.id && r.chapterId == t.chapterId && r.pdfUrl == t.pdfUrl && r.content == t.content
    ensures r.name == (if e.SetName? then e.name else t.name)
    ensures r.topicType == (if e.SetType? then e.topicType else t.topicType)
    ensures r.duration == (if e.SetDuration? then e.duration else t.duration)
    ensures r.description == (if e.SetDescription? then Some(e.description) else t.description)
    ensures r.orderIndex == (if e.SetOrderIndex? then e.parsed.GetOr(0) else t.orderIndex)
  {
    match e
    case SetName(n) => t.(name := n)
    case SetType(ty) => t.(topicType := ty)
    case SetDuration(d) => t.(duration := d)
    case SetDescription(d) => t.(description := Some(d))
    case SetOrderIndex(p) => t.(orderIndex := p.GetOr(0))
  }

  /**
    The iframe check in `handleSubmit`: only iframe content whose HTML is
    non-empty and has no `<iframe` anywhere in it is refused.
   */
  function IframeAccepted(c: Content): (ok: bool)
    ensures ok <==> (|| c.contentType != IframeType
                     || c.iframeHtml == ""
                     || exists i :: OccursAt(c.iframeHtml, IframeTag, i))
  {
    c.contentType != IframeType || c.iframeHtml == "" || Contains(c.iframeHtml, IframeTag)
  }

  class TopicDialog {
    var formData: Topic<Content>
    var loading: bool
    /** How many times the dialog has asked its owner to close it (`onClose`). */
    var closeRequests: nat

    constructor (chapterId: string)
      ensures formData == DefaultTopic(chapterId) && !loading && closeRequests == 0
    {
      formData := DefaultTopic(chapterId);
      loading := false;
      closeRequests := 0;
    }

    /**
      The effect while the dialog is open: incoming data is copied with its
      content normalised; without it the form is reset to the blank topic
      for the given chapter.
     */
    method Open(initialData: Option<Topic<ContentSource>>, chapterId: string)
      modifies this`formData
      ensures initialData.Some? ==> formData == FromInitial(initialData.value)
      ensures initialData.None? ==> formData == DefaultTopic(chapterId)
    {
      if initialData.Some? {
        formData := FromInitial(initialData.value);
      } else {
        formData := DefaultTopic(chapterId);
      }
    }

    method Update(e: TopicEdit)
      modifies this`formData
      ensures formData == UpdateTopic(old(formData), e)
    {
      formData := UpdateTopic(formData, e);
    }

    method UpdateContentField(field: ContentField, value: string)
      modifies this`formData
      ensures formData == old(formData).(content := UpdateContent(old(formData).content, field, value))
    {
      formData := formData.(content := UpdateContent(formData.content, field, value));
    }

    /**
      `handleSubmit` up to `onSubmit`: refused iframe content stops it with
      nothing sent and `loading` untouched; otherwise the form is sent and
      `loading` is set.
     */
    method BeginSubmit() returns (sent: Option<Topic<Content>>)
      modifies this`loading
      ensures sent.Some? <==> IframeAccepted(formData.content)
      ensures sent.Some? ==> sent.value == formData && loading
      ensures sent.None? ==> loading == old(loading)
    {
      if !IframeAccepted(formData.content) {
        return None;
      }
      loading := true;
      sent := Some(formData);
    }

    /** `handleSubmit` after `onSubmit` settles: close only on success; `loading` ends false. */
    method FinishSubmit(succeeded: bool)
      modifies this`loading, this`closeRequests
      ensures !loading
      ensures closeRequests == old(closeRequests) + (if succeeded then 1 else 0)
    {
      if succeeded {
        closeRequests := closeRequests + 1;
      }
      loading := false;
    }

    /**
      A click on the submit button, which is disabled while `loading`. The
      browser checks the `required` name input first and refuses to submit
      the form while the name is empty.
     */
    method ClickSave() returns (sent: Option<Topic<Content>>)
      modifies this`loading
      ensures sent.Some? <==> !old(loading) && formData.name != "" && IframeAccepted(formData.content)
      ensures sent.Some? ==> sent.value == formData && sent.value.name != "" && loading
      ensures sent.None? ==> loading == old(loading)
    {
      if loading || formData.name == "" {
        return None;
      }
      sent := BeginSubmit();
    }
  }
}
