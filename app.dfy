/**
 * The application component: three persisted slices (history, templates, settings), the
 * prompt being edited and its enhanced result, the loading and error indicators, the template
 * selection, and the handlers that change them. Clock readings and fresh identifiers are
 * handler arguments; the backend is the function given to `ResolveEnhance`.
 */
module App {
  import opened Wrappers
  import opened Text
  import opened HistorySidebar
  import opened Templates
  import opened SettingsModal
  import opened GeminiService
  import opened Persistence
  import opened Collections
  import opened Transfer
  import Lists

  const UnexpectedErrorMessage := "An unexpected error occurred."

  /** What the error line shows: a message caught from the enhance call, or one of the two
      localised import messages. */
  datatype ErrorText = Message(text: string) | ImportFailed | ImportReadFailed

  /** The prompt and settings `handleEnhance` captured when it was triggered, kept until the
      awaited call returns. */
  datatype EnhanceRequest = EnhanceRequest(prompt: string, model: GeminiModel, systemInstruction: string)

  /** How reading the chosen import file ends. */
  datatype FileRead =
    | NoFile                      // no file chosen
    | ReadFailed                  // the reader's `onerror`
    | NotText                     // the result is not a string
    | Loaded(parsed: Option<Parsed>)  // text that `JSON.parse` parsed, or None when it threw

  /** The catch block of `handleEnhance`: an `Error`'s message, or a fixed text otherwise. */
  function CaughtMessage(e: Thrown): (r: string)
    ensures e.Error? ==> r == e.message
    ensures e.NonError? ==> r == UnexpectedErrorMessage
  {
    match e
    case Error(m) => m
    case NonError => UnexpectedErrorMessage
  }

  class PromptEnhancer {
    var history: seq<HistoryItem>
    var templates: seq<PromptTemplate>
    var settings: AppSettings

    var originalPrompt: string
    var enhancedPrompt: string
    var isLoading: bool
    var error: Option<ErrorText>
    var isCopied: bool
    var selectedTemplateId: string
    var isTemplateModalOpen: bool
    var editingTemplate: Option<PromptTemplate>
    var isSettingsModalOpen: bool
    var pending: Option<EnhanceRequest>

    /** A request is awaited exactly while the loading indicator is on, and it never carries a
        blank prompt. */
    ghost predicate Valid()
      reads this
      ensures Valid() && isLoading ==> pending.Some? && pending.value.prompt != []
      ensures Valid() && !isLoading ==> pending.None?
    {
      && (isLoading <==> pending.Some?)
      && (pending.Some? ==> !IsBlank(pending.value.prompt))
    }

    /** The three persisted slices. */
    function Persisted(): Snapshot
      reads this
    {
      Snapshot(history, templates, settings)
    }

    /** First render: each slice is loaded from its key with its own fallback; the rest of the
        state starts empty. */
    constructor (store: Store,
                 decodeHistory: string -> Option<seq<HistoryItem>>,
                 decodeTemplates: string -> Option<seq<PromptTemplate>>,
                 decodeSettings: string -> Option<AppSettings>,
                 initialTemplates: seq<PromptTemplate>,
                 defaultSystemInstruction: string)
      ensures Valid() && !isLoading
      ensures history == Hydrate(Get(store, HistoryKey), decodeHistory, [])
      ensures templates == Hydrate(Get(store, TemplatesKey), decodeTemplates, initialTemplates)
      ensures settings == Hydrate(Get(store, SettingsKey), decodeSettings, DefaultSettings(defaultSystemInstruction))
      ensures originalPrompt == "" && enhancedPrompt == "" && error.None? && !isCopied
      ensures selectedTemplateId == "" && !isTemplateModalOpen && editingTemplate.None? && !isSettingsModalOpen
    {
      history := Hydrate(Get(store, HistoryKey), decodeHistory, []);
      templates := Hydrate(Get(store, TemplatesKey), decodeTemplates, initialTemplates);
      settings := Hydrate(Get(store, SettingsKey), decodeSettings, DefaultSettings(defaultSystemInstruction));
      originalPrompt, enhancedPrompt, isLoading, error, isCopied := "", "", false, None, false;
      selectedTemplateId, isTemplateModalOpen, editingTemplate, isSettingsModalOpen := "", false, None, false;
      pending := None;
    }

    /**
     * `handleEnhance` up to the awaited call. A blank prompt changes nothing. Otherwise the
     * loading indicator goes on, the error, the output and the copied flag are cleared, and
     * the prompt and settings are captured for the call. The button is disabled while
     * loading, which is this method's precondition; the handler itself does not check it.
     */
    method HandleEnhance()
      requires Valid() && !isLoading
      modifies this
      ensures Valid()
      ensures IsBlank(old(originalPrompt)) ==> unchanged(this)
      ensures !IsBlank(old(originalPrompt)) ==>
        && isLoading && error.None? && enhancedPrompt == "" && !isCopied
        && pending == Some(EnhanceRequest(originalPrompt, settings.geminiModel, settings.systemInstruction))
      ensures history == old(history) && templates == old(templates) && settings == old(settings)
      ensures originalPrompt == old(originalPrompt) && selectedTemplateId == old(selectedTemplateId)
      ensures isTemplateModalOpen == old(isTemplateModalOpen) && editingTemplate == old(editingTemplate)
      ensures isSettingsModalOpen == old(isSettingsModalOpen)
    {
      if IsBlank(originalPrompt) {
        return;
      }
      isLoading := true;
      error := None;
      enhancedPrompt := "";
      isCopied := false;
      pending := Some(EnhanceRequest(originalPrompt, settings.geminiModel, settings.systemInstruction));
    }

    /**
     * `handleEnhance` after the awaited `enhancePrompt` call, run against `generate`.
     * On success the output is the result and a new item for the captured prompt is put in
     * front of the history; on failure the error is the caught message, the output is
     * emptied and the history is left alone. Either way loading ends. Because a blank prompt
     * is never sent, a new error is never the blank-prompt message. `freshId` and `now` stand
     * for `crypto.randomUUID()` and `Date.now()`.
     */
    method ResolveEnhance(generate: GenerateRequest -> BackendReply, freshId: string, now: int)
      requires Valid() && pending.Some?
      modifies this
      ensures Valid() && !isLoading
      ensures var req := old(pending.value);
        match EnhancePrompt(req.prompt, req.model, req.systemInstruction, generate)
        case Success(text) =>
          && enhancedPrompt == text && error == old(error)
          && history == [HistoryItem(freshId, req.prompt, text, now)] + old(history)
        case Failure(e) =>
          && enhancedPrompt == "" && error == Some(Message(CaughtMessage(e)))
          && history == old(history)
      ensures templates == old(templates) && settings == old(settings)
      ensures originalPrompt == old(originalPrompt) && selectedTemplateId == old(selectedTemplateId)
      ensures isCopied == old(isCopied) && isTemplateModalOpen == old(isTemplateModalOpen)
      ensures editingTemplate == old(editingTemplate) && isSettingsModalOpen == old(isSettingsModalOpen)
      ensures Lists.DistinctIds(old(history), ItemId) && !Lists.HasId(old(history), ItemId, freshId)
              ==> Lists.DistinctIds(history, ItemId)
      ensures error != old(error) ==> error != Some(Message(EmptyPromptMessage))
    {
      var req := pending.value;
      var result := EnhancePrompt(req.prompt, req.model, req.systemInstruction, generate);
      match result {
        case Success(text) =>
          enhancedPrompt := text;
          var item := HistoryItem(freshId, req.prompt, text, now);
          if Lists.DistinctIds(history, ItemId) && !Lists.HasId(history, ItemId, freshId) {
            Lists.PrependKeepsDistinct(history, ItemId, item);
          }
          history := [item] + history;
        case Failure(e) =>
          EmptyPromptErrorIffBlank(req.prompt, req.model, req.systemInstruction, generate);
          error := Some(Message(CaughtMessage(e)));
          enhancedPrompt := "";
      }
      isLoading := false;
      pending := None;
    }

    /** `handleSelectItem`: the item's prompts are shown, the error, copied flag and template
        selection are cleared. */
    method HandleSelectItem(item: HistoryItem)
      modifies this
      ensures originalPrompt == item.originalPrompt && enhancedPrompt == item.enhancedPrompt
      ensures error.None? && !isCopied && selectedTemplateId == ""
      ensures history == old(history) && templates == old(templates) && settings == old(settings)
      ensures isLoading == old(isLoading) && pending == old(pending)
      ensures isTemplateModalOpen == old(isTemplateModalOpen) && editingTemplate == old(editingTemplate)
      ensures isSettingsModalOpen == old(isSettingsModalOpen)
    {
      originalPrompt := item.originalPrompt;
      enhancedPrompt := item.enhancedPrompt;
      error := None;
      isCopied := false;
      selectedTemplateId := "";
    }

    /** `handleDeleteItem`: every item with this id goes, the others keep their order. */
    method HandleDeleteItem(id: string)
      modifies this`history
      ensures history == Lists.WithoutId(old(history), ItemId, id)
      ensures forall x :: x in history <==> x in old(history) && x.id != id
      ensures !Lists.HasId(old(history), ItemId, id) ==> history == old(history)
      ensures Lists.DistinctIds(old(history), ItemId) ==>
        Lists.DistinctIds(history, ItemId)
        && |history| == if Lists.HasId(old(history), ItemId, id) then |old(history)| - 1 else |old(history)|
    {
      if !Lists.HasId(history, ItemId, id) {
        Lists.WithoutAbsentId(history, ItemId, id);
      }
      if Lists.DistinctIds(history, ItemId) {
        Lists.WithoutIdKeepsDistinct(history, ItemId, id);
        Lists.WithoutIdRemovesAtMostOne(history, ItemId, id);
      }
      history := Lists.WithoutId(history, ItemId, id);
    }

    /** `handleClearHistory`. */
    method HandleClearHistory()
      modifies this`history
      ensures history == []
    {
      history := [];
    }

    /** `handleTemplateChange`: the id is selected, and the prompt becomes that template's
        body, or empty when no template has the id. */
    method HandleTemplateChange(id: string)
      modifies this`selectedTemplateId, this`originalPrompt
      ensures selectedTemplateId == id
      ensures (forall t :: t in templates ==> t.id != id) ==> originalPrompt == ""
      ensures forall k :: 0 <= k < |templates| && templates[k].id == id
                && (forall j :: 0 <= j < k ==> templates[j].id != id)
                ==> originalPrompt == templates[k].prompt
    {
      var selected := FindTemplate(templates, id);
      selectedTemplateId := id;
      match selected {
        case Some(t) => originalPrompt := t.prompt;
        case None => originalPrompt := "";
      }
      forall k | 0 <= k < |templates| && templates[k].id == id && (forall j :: 0 <= j < k ==> templates[j].id != id)
        ensures selected == Some(templates[k])
      {
        FindFirstTemplate(templates, id, k);
      }
    }

    /** `handlePromptChange`: the prompt is the typed text and any template selection ends. */
    method HandlePromptChange(value: string)
      modifies this`originalPrompt, this`selectedTemplateId
      ensures originalPrompt == value && selectedTemplateId == ""
    {
      originalPrompt := value;
      if selectedTemplateId != "" {
        selectedTemplateId := "";
      }
    }

    /** The clear button: prompt and selection are emptied. */
    method HandleClearPrompt()
      modifies this`originalPrompt, this`selectedTemplateId
      ensures originalPrompt == "" && selectedTemplateId == ""
    {
      originalPrompt := "";
      selectedTemplateId := "";
    }

    /** `handleOpenModalForAdd`. */
    method HandleOpenModalForAdd()
      modifies this`editingTemplate, this`isTemplateModalOpen
      ensures editingTemplate.None? && isTemplateModalOpen
    {
      editingTemplate := None;
      isTemplateModalOpen := true;
    }

    /** `handleOpenModalForEdit`: opens the dialog on the selected template, if one has that id. */
    method HandleOpenModalForEdit()
      modifies this`editingTemplate, this`isTemplateModalOpen
      ensures FindTemplate(templates, selectedTemplateId).Some? ==>
        editingTemplate == FindTemplate(templates, selectedTemplateId) && isTemplateModalOpen
      ensures FindTemplate(templates, selectedTemplateId).None? ==>
        editingTemplate == old(editingTemplate) && isTemplateModalOpen == old(isTemplateModalOpen)
      ensures FindTemplate(templates, selectedTemplateId).Some? ==>
        editingTemplate.value in templates && editingTemplate.value.id == selectedTemplateId
    {
      var toEdit := FindTemplate(templates, selectedTemplateId);
      if toEdit.Some? {
        editingTemplate := toEdit;
        isTemplateModalOpen := true;
      }
    }

    /** `handleDeleteTemplate`: only with a selection and a confirmation, every template with
        the selected id goes, and the selection and the prompt are cleared. */
    method HandleDeleteTemplate(confirmed: bool)
      modifies this`templates, this`selectedTemplateId, this`originalPrompt
      ensures old(selectedTemplateId) == "" || !confirmed ==>
        templates == old(templates) && selectedTemplateId == old(selectedTemplateId) && originalPrompt == old(originalPrompt)
      ensures old(selectedTemplateId) != "" && confirmed ==>
        && templates == Lists.WithoutId(old(templates), TemplateId, old(selectedTemplateId))
        && selectedTemplateId == "" && originalPrompt == ""
      ensures forall t :: t in templates ==> t in old(templates)
      ensures Lists.DistinctIds(old(templates), TemplateId) ==> Lists.DistinctIds(templates, TemplateId)
    {
      if selectedTemplateId != "" && confirmed {
        if Lists.DistinctIds(templates, TemplateId) {
          Lists.WithoutIdKeepsDistinct(templates, TemplateId, selectedTemplateId);
        }
        templates := Lists.WithoutId(templates, TemplateId, selectedTemplateId);
        selectedTemplateId := "";
        originalPrompt := "";
      }
    }

    /**
     * `handleSaveTemplate`: while editing, every template with the saved id is replaced in
     * place; while adding, the template goes at the end and becomes the selection, and its body
     * the prompt. Either way the dialog closes and nothing is being edited any more.
     */
    method HandleSaveTemplate(template: PromptTemplate)
      modifies this`templates, this`selectedTemplateId, this`originalPrompt,
               this`isTemplateModalOpen, this`editingTemplate
      ensures old(editingTemplate).Some? ==>
        && templates == ReplaceTemplate(old(templates), template)
        && selectedTemplateId == old(selectedTemplateId) && originalPrompt == old(originalPrompt)
      ensures old(editingTemplate).None? ==>
        && templates == old(templates) + [template]
        && selectedTemplateId == template.id && originalPrompt == template.prompt
      ensures !isTemplateModalOpen && editingTemplate.None?
      ensures Lists.DistinctIds(old(templates), TemplateId)
              && (old(editingTemplate).None? ==> !Lists.HasId(old(templates), TemplateId, template.id))
              ==> Lists.DistinctIds(templates, TemplateId)
    {
      if editingTemplate.Some? {
        templates := ReplaceTemplate(templates, template);
      } else {
        if Lists.DistinctIds(templates, TemplateId) && !Lists.HasId(templates, TemplateId, template.id) {
          Lists.AppendKeepsDistinct(templates, TemplateId, template);
        }
        templates := templates + [template];
        selectedTemplateId := template.id;
        originalPrompt := template.prompt;
      }
      isTemplateModalOpen := false;
      editingTemplate := None;
    }

    /** `handleSaveSettings`: the settings are replaced as a whole and the dialog closes. */
    method HandleSaveSettings(newSettings: AppSettings)
      modifies this`settings, this`isSettingsModalOpen
      ensures settings == newSettings && !isSettingsModalOpen
    {
      settings := newSettings;
      isSettingsModalOpen := false;
    }

    /** `handleExportData`'s document; exporting reads the three slices and changes nothing. */
    method HandleExportData() returns (document: Parsed)
      ensures document == Export(Persisted())
      ensures Accept(document, Persisted()) == Persisted()
    {
      document := Document(ArrayValue(history), ArrayValue(templates), ObjectValue(settings));
      ImportOfExport(Persisted(), Persisted());
    }

    /**
     * `handleImportData` with the file's reading as `read` and the answer to the confirmation
     * as `confirmed`. Without a file nothing happens; a failed read or text that is not a
     * string or does not parse reports an import error and changes nothing else; a declined
     * confirmation changes nothing; a confirmed `null` document fails on its first property
     * read and reports an import error; any other confirmed document replaces exactly the
     * well-shaped slices.
     */
    method HandleImportData(read: FileRead, confirmed: bool)
      modifies this`history, this`templates, this`settings, this`error
      ensures read.NoFile? ==> Persisted() == old(Persisted()) && error == old(error)
      ensures read.ReadFailed? ==> Persisted() == old(Persisted()) && error == Some(ImportReadFailed)
      ensures read.NotText? || read == Loaded(None) ==> Persisted() == old(Persisted()) && error == Some(ImportFailed)
      ensures read.Loaded? && read.parsed.Some? && !confirmed ==> Persisted() == old(Persisted()) && error == old(error)
      ensures read == Loaded(Some(NullDocument)) && confirmed ==> Persisted() == old(Persisted()) && error == Some(ImportFailed)
      ensures read.Loaded? && read.parsed.Some? && read.parsed.value.Document? && confirmed ==>
        Persisted() == Accept(read.parsed.value, old(Persisted())) && error == old(error)
    {
      match read {
        case NoFile =>
          return;
        case ReadFailed =>
          error := Some(ImportReadFailed);
        case NotText =>
          error := Some(ImportFailed);
        case Loaded(None) =>
          error := Some(ImportFailed);
        case Loaded(Some(parsed)) =>
          if confirmed {
            match parsed {
              case NullDocument =>
                error := Some(ImportFailed);
              case Document(h, ts, st) =>
                if IsArray(h) {
                  history := h.items;
                }
                if IsArray(ts) {
                  templates := ts.items;
                }
                if IsNonNullObject(st) {
                  settings := Content(st);
                }
            }
          }
      }
    }
  }
}
