/**
  The admin topic composer: a cascade of program, unit and chapter
  selections, inline creation of units and chapters, and a topic draft
  whose content fields are edited one at a time. Fetched lists and the
  results of create and submit calls arrive as parameters.
 */
module TopicComposer {
  import opened Wrappers
  import opened Text

  /** A program, unit or chapter as the admin endpoints list it. */
  datatype Item = Item(id: string, name: string)

  /** The content fields the composer edits. */
  datatype ContentField = ContentType | Url | VideoUrl | PdfUrl | TextContent

  /** The draft's content: a type, and each other field absent until first edited. */
  datatype Content = Content(
    contentType: string,
    url: Option<string>,
    videoUrl: Option<string>,
    pdfUrl: Option<string>,
    textContent: Option<string>)

  /** The topic draft. `orderIndex` holds `parseInt`'s result: None stands for NaN. */
  datatype Draft = Draft(
    name: string,
    topicType: string,
    duration: string,
    orderIndex: Option<int>,
    chapterId: string,
    content: Content)

  /** The edits `handleChange` receives from the inputs. */
  datatype DraftChange =
    | SetName(name: string)
    | SetType(topicType: string)
    | SetDuration(duration: string)
    | SetOrderIndex(parsed: Option<int>)

  /** The body of the create-unit request (its random id and icon are not modelled). */
  datatype UnitRequest = UnitRequest(name: string, color: string, isLocked: bool, orderIndex: nat, classId: string)

  /** The body of the create-chapter request. */
  datatype ChapterRequest = ChapterRequest(name: string, orderIndex: nat, subjectId: string)

  /** How a create call ended: the created item was echoed back, or not (refused or thrown). */
  datatype CreateOutcome = Created(item: Item) | NotCreated

  const DefaultContentType: string := "EXTERNAL_LINK"
  const DefaultDraft: Draft := Draft("", "VIDEO", "", Some(0), "", Content(DefaultContentType, None, None, None, None))
  const UnitColor: string := "from-blue-400 to-blue-600"

  /** A content field's value, with the type as a present value. */
  function ContentValue(c: Content, f: ContentField): Option<string> {
    match f
    case ContentType => Some(c.contentType)
    case Url => c.url
    case VideoUrl => c.videoUrl
    case PdfUrl => c.pdfUrl
    case TextContent => c.textContent
  }

  /**
    `handleContentChange(field, value)`: the named field takes the value and
    every other field, the fields of other content types included, is kept.
   */
  function EditContent(c: Content, field: ContentField, value: string): (r: Content)
    ensures ContentValue(r, field) == Some(value)
    ensures forall f :: f != field ==> ContentValue(r, f) == ContentValue(c, f)
  {
    match field
    case ContentType => c.(contentType := value)
    case Url => c.(url := Some(value))
    case VideoUrl => c.(videoUrl := Some(value))
    case PdfUrl => c.(pdfUrl := Some(value))
    case TextContent => c.(textContent := Some(value))
  }

  /** Switching the content type keeps the values typed for the other types. */
  lemma SwitchingTypeKeepsOtherFields(c: Content, newType: string)
    ensures var r := EditContent(c, ContentType, newType);
            r.contentType == newType &&
            r.url == c.url && r.videoUrl == c.videoUrl && r.pdfUrl == c.pdfUrl && r.textContent == c.textContent
  {
    assert ContentValue(EditContent(c, ContentType, newType), Url) == c.url;
    assert ContentValue(EditContent(c, ContentType, newType), VideoUrl) == c.videoUrl;
    assert ContentValue(EditContent(c, ContentType, newType), PdfUrl) == c.pdfUrl;
    assert ContentValue(EditContent(c, ContentType, newType), TextContent) == c.textContent;
  }

  /** `handleChange(field, value)` for the four topic inputs. */
  function ApplyChange(d: Draft, e: DraftChange): (r: Draft)
    ensures r.chapterId == d.chapterId && r.content == d.content
    ensures r.name == (if e.SetName? then e.name else d.name)
    ensures r.topicType == (if e.SetType? then e.topicType else d.topicType)
    ensures r.duration == (if e.SetDuration? then e.duration else d.duration)
    ensures r.orderIndex == (if e.SetOrderIndex? then e.parsed else d.orderIndex)
  {
    match e
    case SetName(n) => d.(name := n)
    case SetType(t) => d.(topicType := t)
    case SetDuration(s) => d.(duration := s)
    case SetOrderIndex(p) => d.(orderIndex := p)
  }

  /**
    `isAddTopicDisabled`: disabled exactly when a selection is missing, the
    name or the duration is blank, or the type is empty.
   */
  function AddTopicDisabled(program: string, unit: string, chapter: string, d: Draft): (r: bool)
    ensures r <==> (|| program == "" || unit == "" || chapter == ""
                   || IsBlank(d.name) || d.topicType == "" || IsBlank(d.duration))
  {
    TrimEmptyIffBlank(d.name);
    TrimEmptyIffBlank(d.duration);
    program == "" || unit == "" || chapter == "" || Trim(d.name) == "" || d.topicType == "" || Trim(d.duration) == ""
  }

  class Composer {
    var programs: seq<Item>
    var units: seq<Item>
    var chapters: seq<Item>
    var selectedProgram: string
    var selectedUnit: string
    var selectedChapter: string
    var form: Draft
    var isLoading: bool
    var showAddUnit: bool
    var showAddChapter: bool
    var addingUnit: bool
    var addingChapter: bool
    var newUnitName: string
    var newChapterName: string
    /** How many times the composer has asked its owner to close it (`onClose`). */
    var closeRequests: nat

    /** The effect on `selectedChapter` keeps the draft's chapter equal to the selection. */
    predicate Valid()
      reads this
    {
      form.chapterId == selectedChapter
    }

    /** The Create Topic button is disabled while a submit is in progress, too. */
    predicate SubmitDisabled()
      reads this
      ensures !SubmitDisabled() ==> && selectedProgram != "" && selectedUnit != "" && selectedChapter != ""
                                    && !isLoading && Trim(form.name) != "" && Trim(form.duration) != ""
    {
      TrimEmptyIffBlank(form.name);
      TrimEmptyIffBlank(form.duration);
      AddTopicDisabled(selectedProgram, selectedUnit, selectedChapter, form) || isLoading
    }

    constructor ()
      ensures Valid()
      ensures programs == [] && units == [] && chapters == []
      ensures selectedProgram == "" && selectedUnit == "" && selectedChapter == ""
      ensures form == DefaultDraft && !isLoading && closeRequests == 0
      ensures !showAddUnit && !showAddChapter && !addingUnit && !addingChapter
      ensures newUnitName == "" && newChapterName == ""
    {
      programs, units, chapters := [], [], [];
      selectedProgram, selectedUnit, selectedChapter := "", "", "";
      form := DefaultDraft;
      isLoading := false;
      showAddUnit, showAddChapter, addingUnit, addingChapter := false, false, false, false;
      newUnitName, newChapterName := "", "";
      closeRequests := 0;
    }

    /**
      The effect that runs when the composer opens: both lists and all
      three selections are emptied and the draft is reset; the program list
      is refetched, and the inline forms are left as they were.
     */
    method Open()
      modifies this`units, this`chapters, this`selectedProgram, this`selectedUnit, this`selectedChapter, this`form
      ensures Valid()
      ensures units == [] && chapters == []
      ensures selectedProgram == "" && selectedUnit == "" && selectedChapter == ""
      ensures form == DefaultDraft
    {
      units, chapters := [], [];
      selectedProgram, selectedUnit, selectedChapter := "", "", "";
      form := DefaultDraft;
    }

    /** A fetched list replaces the old one when it is an array, and is empty otherwise. */
    method ProgramsLoaded(data: Option<seq<Item>>)
      modifies this`programs
      ensures programs == data.GetOr([])
    {
      programs := data.GetOr([]);
    }

    method UnitsLoaded(data: Option<seq<Item>>)
      modifies this`units
      ensures units == data.GetOr([])
    {
      units := data.GetOr([]);
    }

    method ChaptersLoaded(data: Option<seq<Item>>)
      modifies this`chapters
      ensures chapters == data.GetOr([])
    {
      chapters := data.GetOr([]);
    }

    /**
      Selecting a program. When the value changes to a non-empty one, the
      program effect empties the chapters and clears the unit and chapter
      selections (the unit list is refetched); otherwise only the selection
      is stored.
     */
    method SelectProgram(id: string)
      requires Valid()
      modifies this`selectedProgram, this`chapters, this`selectedUnit, this`selectedChapter, this`form
      ensures Valid() && selectedProgram == id
      ensures form.(chapterId := "") == old(form).(chapterId := "")
      ensures if id != "" && id != old(selectedProgram)
              then chapters == [] && selectedUnit == "" && selectedChapter == ""
              else chapters == old(chapters) && selectedUnit == old(selectedUnit) && selectedChapter == old(selectedChapter)
    {
      var changed := id != selectedProgram;
      selectedProgram := id;
      if id != "" && changed {
        chapters := [];
        selectedUnit := "";
        selectedChapter := "";
        form := form.(chapterId := "");
      }
    }

    /**
      Selecting a unit. When the value changes to a non-empty one, the unit
      effect clears the chapter selection (the chapter list is refetched).
     */
    method SelectUnit(id: string)
      requires Valid()
      modifies this`selectedUnit, this`selectedChapter, this`form
      ensures Valid() && selectedUnit == id
      ensures form.(chapterId := "") == old(form).(chapterId := "")
      ensures if id != "" && id != old(selectedUnit)
              then selectedChapter == ""
              else selectedChapter == old(selectedChapter)
    {
      var changed := id != selectedUnit;
      selectedUnit := id;
      if id != "" && changed {
        selectedChapter := "";
        form := form.(chapterId := "");
      }
    }

    /** Selecting a chapter; the draft's chapter follows. */
    method SelectChapter(id: string)
      modifies this`selectedChapter, this`form
      ensures Valid() && selectedChapter == id
      ensures form == old(form).(chapterId := id)
    {
      selectedChapter := id;
      form := form.(chapterId := id);
    }

    /** An edit of one of the topic inputs. */
    method Change(e: DraftChange)
      requires Valid()
      modifies this`form
      ensures Valid() && form == ApplyChange(old(form), e)
    {
      form := ApplyChange(form, e);
    }

    /** An edit of one content field. */
    method ChangeContent(field: ContentField, value: string)
      requires Valid()
      modifies this`form
      ensures Valid() && form == old(form).(content := EditContent(old(form).content, field, value))
    {
      form := form.(content := EditContent(form.content, field, value));
    }

    /** The "+ Add" button next to the units, disabled without a program. */
    method ShowUnitForm()
      modifies this`showAddUnit
      ensures showAddUnit == (old(showAddUnit) || selectedProgram != "")
    {
      if selectedProgram != "" {
        showAddUnit := true;
      }
    }

    method TypeUnitName(name: string)
      modifies this`newUnitName
      ensures newUnitName == name
    {
      newUnitName := name;
    }

    /** Cancel on the inline unit form hides it and forgets the typed name. */
    method CancelUnitForm()
      modifies this`showAddUnit, this`newUnitName
      ensures !showAddUnit && newUnitName == ""
    {
      showAddUnit, newUnitName := false, "";
    }

    /**
      `handleAddUnit` up to the request: nothing happens without a program
      or with a blank name; otherwise the request carries the typed name and
      the current number of units as its order index.
     */
    method BeginAddUnit() returns (request: Option<UnitRequest>)
      modifies this`addingUnit
      ensures request.None? <==> (selectedProgram == "" || IsBlank(newUnitName))
      ensures request.Some? ==> request.value == UnitRequest(newUnitName, UnitColor, false, |units|, selectedProgram) && addingUnit
      ensures request.None? ==> addingUnit == old(addingUnit)
    {
      TrimEmptyIffBlank(newUnitName);
      if selectedProgram == "" || Trim(newUnitName) == "" {
        return None;
      }
      addingUnit := true;
      request := Some(UnitRequest(newUnitName, UnitColor, false, |units|, selectedProgram));
    }

    /**
      The inline form's Add button and its Enter key, both disabled while
      a unit is being added: a second request is never sent meanwhile. Both
      exist only while the inline form is shown.
     */
    method ClickAddUnit() returns (request: Option<UnitRequest>)
      requires showAddUnit
      modifies this`addingUnit
      ensures request.Some? <==> !old(addingUnit) && selectedProgram != "" && !IsBlank(newUnitName)
      ensures request.Some? ==> request.value == UnitRequest(newUnitName, UnitColor, false, |units|, selectedProgram)
      ensures addingUnit == (old(addingUnit) || request.Some?)
    {
      if addingUnit {
        return None;
      }
      request := BeginAddUnit();
    }

    /**
      `handleAddUnit` after the response: a created unit is appended at the
      end and selected (which runs the unit effect), the name is cleared and
      the inline form hidden. Either way `addingUnit` ends false.
     */
    method FinishAddUnit(outcome: CreateOutcome)
      requires Valid()
      modifies this`units, this`selectedUnit, this`selectedChapter, this`form,
               this`newUnitName, this`showAddUnit, this`addingUnit
      ensures Valid() && !addingUnit
      ensures outcome.Created? ==>
                && units == old(units) + [outcome.item]
                && selectedUnit == outcome.item.id
                && newUnitName == "" && !showAddUnit
                && (if outcome.item.id != "" && outcome.item.id != old(selectedUnit)
                    then selectedChapter == ""
                    else selectedChapter == old(selectedChapter))
      ensures outcome.NotCreated? ==>
                && units == old(units) && selectedUnit == old(selectedUnit)
                && selectedChapter == old(selectedChapter) && form == old(form)
                && newUnitName == old(newUnitName) && showAddUnit == old(showAddUnit)
    {
      if outcome.Created? {
        units := units + [outcome.item];
        SelectUnit(outcome.item.id);
        newUnitName := "";
        showAddUnit := false;
      }
      addingUnit := false;
    }

    /** The "+ Add" button next to the chapters, disabled without a unit. */
    method ShowChapterForm()
      modifies this`showAddChapter
      ensures showAddChapter == (old(showAddChapter) || selectedUnit != "")
    {
      if selectedUnit != "" {
        showAddChapter := true;
      }
    }

    method TypeChapterName(name: string)
      modifies this`newChapterName
      ensures newChapterName == name
    {
      newChapterName := name;
    }

    method CancelChapterForm()
      modifies this`showAddChapter, this`newChapterName
      ensures !showAddChapter && newChapterName == ""
    {
      showAddChapter, newChapterName := false, "";
    }

    /** `handleAddChapter` up to the request, by the same rules against the selected unit. */
    method BeginAddChapter() returns (request: Option<ChapterRequest>)
      modifies this`addingChapter
      ensures request.None? <==> (selectedUnit == "" || IsBlank(newChapterName))
      ensures request.Some? ==> request.value == ChapterRequest(newChapterName, |chapters|, selectedUnit) && addingChapter
      ensures request.None? ==> addingChapter == old(addingChapter)
    {
      TrimEmptyIffBlank(newChapterName);
      if selectedUnit == "" || Trim(newChapterName) == "" {
        return None;
      }
      addingChapter := true;
      request := Some(ChapterRequest(newChapterName, |chapters|, selectedUnit));
    }

    /**
      The chapter form's Add button and Enter key, disabled while a chapter
      is being added; both exist only while the chapter form is shown.
     */
    method ClickAddChapter() returns (request: Option<ChapterRequest>)
      requires showAddChapter
      modifies this`addingChapter
      ensures request.Some? <==> !old(addingChapter) && selectedUnit != "" && !IsBlank(newChapterName)
      ensures request.Some? ==> request.value == ChapterRequest(newChapterName, |chapters|, selectedUnit)
      ensures addingChapter == (old(addingChapter) || request.Some?)
    {
      if addingChapter {
        return None;
      }
      request := BeginAddChapter();
    }

    /** `handleAddChapter` after the response: a created chapter is appended and selected. */
    method FinishAddChapter(outcome: CreateOutcome)
      requires Valid()
      modifies this`chapters, this`selectedChapter, this`form,
               this`newChapterName, this`showAddChapter, this`addingChapter
      ensures Valid() && !addingChapter
      ensures outcome.Created? ==>
                && chapters == old(chapters) + [outcome.item]
                && selectedChapter == outcome.item.id
                && form == old(form).(chapterId := outcome.item.id)
                && newChapterName == "" && !showAddChapter
      ensures outcome.NotCreated? ==>
                && chapters == old(chapters) && selectedChapter == old(selectedChapter)
                && form == old(form)
                && newChapterName == old(newChapterName) && showAddChapter == old(showAddChapter)
    {
      if outcome.Created? {
        chapters := chapters + [outcome.item];
        SelectChapter(outcome.item.id);
        newChapterName := "";
        showAddChapter := false;
      }
      addingChapter := false;
    }

    /** `handleSubmit` up to `onSubmit`: the draft is handed over and `isLoading` is set. */
    method BeginSubmit() returns (sent: Draft)
      modifies this`isLoading
      ensures sent == form && isLoading
    {
      isLoading := true;
      sent := form;
    }

    /** `handleSubmit` after `onSubmit` settles: close only on success; `isLoading` ends false. */
    method FinishSubmit(succeeded: bool)
      modifies this`isLoading, this`closeRequests
      ensures !isLoading
      ensures closeRequests == old(closeRequests) + (if succeeded then 1 else 0)
    {
      if succeeded {
        closeRequests := closeRequests + 1;
      }
      isLoading := false;
    }

    /**
      The browser's check of the order-index input before any submit: it is
      `required` (NaN shows as an empty field) and has `min="0"`.
     */
    predicate OrderIndexAccepted()
      reads this
      ensures OrderIndexAccepted() ==> form.orderIndex.Some? && form.orderIndex.value >= 0
    {
      form.orderIndex.Some? && form.orderIndex.value >= 0
    }

    /**
      A click on Create Topic submits only when the button is enabled and
      the browser accepts the order index; the name's `required` check is
      implied by the button's own non-blank test.
     */
    method ClickCreate() returns (sent: Option<Draft>)
      modifies this`isLoading
      ensures sent.Some? <==> !old(SubmitDisabled()) && OrderIndexAccepted()
      ensures sent.Some? ==> && sent.value == form && isLoading
                             && sent.value.name != ""
                             && sent.value.orderIndex.Some? && sent.value.orderIndex.value >= 0
      ensures sent.None? ==> isLoading == old(isLoading)
    {
      if SubmitDisabled() || !OrderIndexAccepted() {
        return None;
      }
      assert !IsBlank(form.name);
      var d := BeginSubmit();
      sent := Some(d);
    }
  }
}
