# Gemini Prompt Enhancer: client-side state core in Dafny

This project models the state logic of a single-page prompt-enhancer application. The user
types a prompt. The application sends it, framed, to a generation backend, shows the
enhanced result, and records each success in a history list. Beside the history, the
application keeps a list of reusable prompt templates and one settings record
(model, system instruction, interface language). All three are loaded from browser storage
at start-up, can be exported as one document and imported back field by field.

Modules, following the source files:

- `Text`: ECMAScript `String.prototype.trim` and the blank test `!s.trim()`.
- `Lists`: deletion by id (`list.filter(x => x.id !== id)`) and the distinct-id invariant.
- `HistorySidebar`, `Templates`: the `HistoryItem` and `PromptTemplate` records.
- `SettingsModal`: the `AppSettings` record with its two enumerations, and the settings
  dialog as a class holding the draft record.
- `TemplateModal`: template validation and construction, and the template dialog as a class.
- `GeminiService`: `enhancePrompt`. The backend call is a function parameter.
- `Persistence`: storage keys, the key/value store and loading a slice with a fallback.
- `Collections`: look-up and replacement of templates by id.
- `Transfer`: the export document and the shape checks made on import.
- `App`: the application component as the class `PromptEnhancer`, one method per handler.

## Model

| member | source | states |
|---|---|---|
| `Text.IsWhitespace` | services/geminiService.ts:49 | the characters `trim()` removes: among ASCII exactly tab, line feed, vertical tab, form feed, carriage return and space, and never a letter or digit |
| `Text.Trim` | services/geminiService.ts:49 | `s.trim()` is never longer than `s`, and when not empty it neither starts nor ends with white space |
| `Text.IsBlank` | App.tsx:115 | `!s.trim()` holds exactly when every character of `s` is white space |
| `Text.TrimStartSpec` | services/geminiService.ts:49 | trimming the front removes exactly the longest all-white-space prefix |
| `Text.TrimEndSpec` | services/geminiService.ts:49 | trimming the back removes exactly the longest all-white-space suffix |
| `Text.TrimIsInfix` | services/geminiService.ts:49 | `trim()` returns an infix with only white space around it, and the infix starts and ends with a non-blank character |
| `Text.BlankIffAllWhitespace` | components/TemplateModal.tsx:35 | trimming leaves the empty string exactly when every character is white space |
| `Text.TrimIdempotent` | components/TemplateModal.tsx:42 | trimming a trimmed title changes nothing |
| `Lists.WithoutId` | App.tsx:162 | deleting by id keeps exactly the elements whose id differs, and never grows the list |
| `Lists.WithoutIdAppend` | App.tsx:162 | deletion distributes over concatenation, so the kept elements keep their order |
| `Lists.WithoutAbsentId` | App.tsx:161-163 | deleting an id no element carries leaves the list unchanged |
| `Lists.WithoutIdIdempotent` | App.tsx:161-163 | deleting the same id twice is deleting it once |
| `Lists.WithoutIdKeepsDistinct` | App.tsx:202 | deletion keeps ids distinct |
| `Lists.WithoutIdRemovesAtMostOne` | App.tsx:161-163 | with distinct ids, deletion removes exactly one element when the id is present and none otherwise |
| `Lists.PrependKeepsDistinct` | App.tsx:132 | a new history item with an unused id keeps history ids distinct |
| `Lists.AppendKeepsDistinct` | App.tsx:212 | a template added with an unused id keeps template ids distinct |
| `SettingsModal.GeminiModel.Id` | components/SettingsModal.tsx:9 | a model is always `gemini-2.5-pro` or `gemini-2.5-flash`, and only the Pro model has the first id |
| `SettingsModal.Language.Code` | components/SettingsModal.tsx:11 | a language is always `it` or `en`, and only Italian has `it` |
| `SettingsModal.ParseModel` | components/SettingsModal.tsx:104-118 | the values the two model radio buttons carry are exactly the two model ids, and each reads as the model with that id |
| `SettingsModal.ParseLanguage` | components/SettingsModal.tsx:72-88 | the values the two language radio buttons carry are exactly `it` and `en`, and each reads as the language with that code |
| `SettingsModal.ModelIdRoundTrip` | components/SettingsModal.tsx:9 | a model's id reads back as the same model |
| `SettingsModal.LanguageCodeRoundTrip` | components/SettingsModal.tsx:11 | a language's code reads back as the same language |
| `SettingsModal.SettingsEditor.constructor` | components/SettingsModal.tsx:35 | the draft starts as the settings it was given |
| `SettingsModal.SettingsEditor.Open` | components/SettingsModal.tsx:37-41 | on opening, the draft equals the saved settings |
| `SettingsModal.SettingsEditor.Save` | components/SettingsModal.tsx:43-45 | saving hands over the whole draft, with no partial path |
| `SettingsModal.SettingsEditor.RestoreDefault` | components/SettingsModal.tsx:47-49 | restore-default sets only the system instruction, to the default text; model and language stay |
| `SettingsModal.SettingsEditor.SetLanguage` | components/SettingsModal.tsx:77-88 | a language radio button changes only the language |
| `SettingsModal.SettingsEditor.SetModel` | components/SettingsModal.tsx:107-118 | a model radio button changes only the model |
| `SettingsModal.SettingsEditor.SetSystemInstruction` | components/SettingsModal.tsx:145 | the instruction text area changes only the system instruction |
| `TemplateModal.BuildTemplate` | components/TemplateModal.tsx:34-45 | nothing is saved when the title or body is blank; otherwise the saved title is the trimmed title, the body is kept verbatim, an edited template with a non-empty id keeps that id, and any other template gets the fresh id |
| `TemplateModal.BuiltTemplateIsWellFormed` | components/TemplateModal.tsx:35-43 | every saved template has a non-blank, already-trimmed title and a non-blank body |
| `TemplateModal.TemplateEditor.constructor` | components/TemplateModal.tsx:17-19 | title, body and error start empty |
| `TemplateModal.TemplateEditor.Open` | components/TemplateModal.tsx:21-32 | on opening, the fields come from the edited template, or are empty when adding; the error is cleared either way |
| `TemplateModal.TemplateEditor.SetTitle` | components/TemplateModal.tsx:71 | the title input changes only the title |
| `TemplateModal.TemplateEditor.SetPromptContent` | components/TemplateModal.tsx:84 | the body text area changes only the body |
| `TemplateModal.TemplateEditor.Save` | components/TemplateModal.tsx:34-45 | a blank title or body sets the error and saves nothing; otherwise the built template is handed on and the error stays |
| `GeminiService.RequestFor` | services/geminiService.ts:36-42 | the one request sent uses the chosen model and system instruction, and its contents are the preamble followed by the prompt verbatim |
| `GeminiService.FramePrompt` | services/geminiService.ts:34 | the backend text is the fixed preamble followed by the prompt verbatim |
| `GeminiService.Wrap` | services/geminiService.ts:50-56 | a caught `Error` with message m is rethrown as `Failed to enhance prompt: ` + m; anything else becomes the fixed unknown-error message |
| `GeminiService.EnhancePrompt` | services/geminiService.ts:24-57 | a blank prompt fails with the unwrapped `Prompt cannot be empty.`; for any other prompt a backend throw fails with the wrapped error (`Wrap`) and a non-empty response text succeeds with that text trimmed; every failure is an `Error`; a success means a non-blank prompt and a non-empty response text |
| `GeminiService.BlankPromptSendsNothing` | services/geminiService.ts:29-31 | with a blank prompt the outcome does not depend on the backend at all |
| `GeminiService.OnlyTheFramedRequestMatters` | services/geminiService.ts:34-42 | the outcome depends on the backend only through its answer to the framed request with the chosen model and instruction |
| `GeminiService.EmptyResponseFails` | services/geminiService.ts:44-47 | a missing or empty response text fails with the wrapped empty-response message |
| `GeminiService.WhitespaceResponseSucceedsEmpty` | services/geminiService.ts:45-49 | a response made only of white space succeeds with the empty string |
| `GeminiService.ResultIsTrimmed` | services/geminiService.ts:49 | a successful result neither starts nor ends with white space |
| `GeminiService.FailureMessageForms` | services/geminiService.ts:50-56 | every failure message is the blank-prompt message, the unknown-error message, or starts with `Failed to enhance prompt: ` |
| `GeminiService.EmptyPromptErrorIffBlank` | services/geminiService.ts:29-31 | the blank-prompt message is reported exactly when the prompt is blank |
| `Persistence.Get` | App.tsx:33 | reading a key gives its text exactly when the key is stored |
| `Persistence.Put` | App.tsx:90 | writing a key sets that key and leaves every other key as it was |
| `Persistence.Hydrate` | App.tsx:31-39 | loading never fails: a missing key, an empty text or an undecodable text gives the default, and otherwise the decoded value |
| `Persistence.DefaultSettings` | App.tsx:77-81 | the default settings are `gemini-2.5-pro`, the default instruction and `it` |
| `Persistence.PersistThenHydrate` | App.tsx:88-94 | a slice written with an encoding its decoder inverts loads back as the same slice |
| `Persistence.WritesAreIsolated` | App.tsx:97-103 | writing one key does not change what another key loads |
| `Persistence.KeysAreDistinct` | App.tsx:18-20 | the three slices have three distinct keys |
| `Collections.FindTemplate` | App.tsx:171 | the look-up fails exactly when no template has the id; otherwise it gives a listed template with that id |
| `Collections.FindFirstTemplate` | App.tsx:193 | the look-up gives the first template with the id |
| `Collections.ReplaceTemplate` | App.tsx:210 | replacement keeps the length and every id, changes the templates with the saved id to the saved template, and leaves all others |
| `Collections.ReplaceAbsentId` | App.tsx:209-210 | replacing an id that no template carries changes nothing |
| `Collections.ReplaceKeepsDistinct` | App.tsx:210 | replacement keeps template ids distinct |
| `Collections.FindAfterReplace` | App.tsx:210 | after a replacement, looking up the saved id finds the saved template |
| `Collections.ReplaceIdempotent` | App.tsx:208-210 | saving the same edit twice is saving it once |
| `Transfer.IsArray` | App.tsx:267 | `Array.isArray`: every array also passes the settings test `typeof … === 'object'` |
| `Transfer.IsNonNullObject` | App.tsx:273 | `typeof … === 'object' && … !== null`: a missing field, `null` and a primitive fail it |
| `Transfer.Export` | App.tsx:227-231 | the export holds history and templates as arrays and settings as an object, each equal to the current slice |
| `Transfer.Accept` | App.tsx:266-275 | history and templates are replaced only by arrays, settings by any non-null object including an array, and every other field leaves its slice alone |
| `Transfer.ImportOfExport` | App.tsx:225-275 | importing an export restores exactly the exported state, whatever came before |
| `Transfer.FieldsAreIndependent` | App.tsx:267-275 | each slice is decided by its own field alone |
| `Transfer.PartialAcceptance` | App.tsx:270-275 | an object in place of the templates array leaves the templates unchanged while the settings object is still taken |
| `Transfer.IllShapedDocumentChangesNothing` | App.tsx:266-275 | a document with no well-shaped field changes no slice |
| `App.CaughtMessage` | App.tsx:134 | an `Error` shows its own message; anything else shows `An unexpected error occurred.` |
| `App.PromptEnhancer.Valid` | App.tsx:114-139 | the loading indicator is on exactly while a request is awaited, and that request carries a non-empty, non-blank prompt |
| `App.PromptEnhancer.constructor` | App.tsx:22-82 | each slice is loaded from its own key with its own fallback (`[]`, the seed templates, the default settings); nothing is loading |
| `App.PromptEnhancer.HandleEnhance` | App.tsx:114-121 | a blank prompt changes no state at all; otherwise loading starts, the error, output and copied flag are cleared, the prompt and settings are captured, and no slice changes |
| `App.PromptEnhancer.ResolveEnhance` | App.tsx:123-139 | on success the output is the result and history becomes the new item for the captured prompt followed by the old history; on failure the error is the caught message, the output is empty and history is unchanged; loading ends either way; ids stay distinct when the fresh id is unused |
| `App.PromptEnhancer.HandleSelectItem` | App.tsx:150-159 | the item's prompts are shown, and the error, copied flag and template selection are cleared |
| `App.PromptEnhancer.HandleDeleteItem` | App.tsx:161-163 | every item with the id goes and the rest stay in order; an absent id is a no-op; with distinct ids exactly one item goes |
| `App.PromptEnhancer.HandleClearHistory` | App.tsx:165-167 | history becomes empty |
| `App.PromptEnhancer.HandleTemplateChange` | App.tsx:169-178 | the id is selected, and the prompt becomes the first matching template's body, or empty when none matches |
| `App.PromptEnhancer.HandlePromptChange` | App.tsx:180-185 | the prompt is the typed text and the selection is cleared |
| `App.PromptEnhancer.HandleClearPrompt` | App.tsx:384-387 | the prompt and the selection are emptied |
| `App.PromptEnhancer.HandleOpenModalForAdd` | App.tsx:187-190 | the dialog opens with no template being edited |
| `App.PromptEnhancer.HandleOpenModalForEdit` | App.tsx:192-198 | the dialog opens on the selected template when one has that id, and otherwise nothing changes |
| `App.PromptEnhancer.HandleDeleteTemplate` | App.tsx:200-206 | nothing happens without a selection and a confirmation; otherwise the selected id is filtered out and the selection and prompt are cleared |
| `App.PromptEnhancer.HandleSaveTemplate` | App.tsx:208-218 | an edit replaces the matching templates in place; an addition appends, selects the new id and loads its body; the dialog closes; ids stay distinct |
| `App.PromptEnhancer.HandleSaveSettings` | App.tsx:220-223 | the settings are replaced as a whole and the dialog closes |
| `App.PromptEnhancer.HandleExportData` | App.tsx:225-231 | export reads the three slices, changes nothing, and its document imports back to the same slices |
| `App.PromptEnhancer.HandleImportData` | App.tsx:252-292 | no file: no change; a read, text or parse failure: an error and no slice change; a declined confirmation: no change; a confirmed `null` document: an error and no slice change; any other confirmed document: exactly the well-shaped slices are replaced |

## Behaviour that follows the code

- Deleting a history item or a template removes every entry with that id, not only the first.
  When ids are distinct this is one entry at most (`Lists.WithoutIdRemovesAtMostOne`).
- Import accepts an array as the settings value, because only `typeof` and `null` are checked.
- A stored text that is empty loads as the default, exactly like a missing key.
- `handleEnhance` does not check whether a request is already running. Only the disabled button
  prevents a second request. There is no request counter, so nothing drops a late result: any
  later reply overwrites the output, even one shown by selecting a history item in the meantime.
- A confirmed import of a document that parses to `null` fails on its first property read.
  It reports the import error and changes nothing.

## Left out

- Rendering, styling, the `Loader` component and the presentation part of the history sidebar.
  This includes the sidebar toggle that depends on `window.innerWidth` and the dialogs' close buttons.
- The translation tables and the `t` lookup. Localised messages are the `ErrorText` tags
  `ImportFailed` and `ImportReadFailed`, and the template dialog's message is a parameter.
- `JSON.parse` and `JSON.stringify`. Decoders are parameters that yield a typed value or fail.
  The program takes whatever a stored text parses to as the slice. A parsed value of the wrong
  type cannot be represented, because the slices are typed.
- Import does not check the elements of an accepted array or the contents of an accepted
  settings object. The model holds, beneath an array or object field, the record the program
  goes on to use. Ill-typed records and arrays used as settings are not represented.
- The write-through effects that save each slice after every change. Their quota or
  serialisation failures are only logged. `Persistence.Put` models a successful write.
  `PromptEnhancer` does not hold the store after start-up.
- File reading and download: `FileReader`, `Blob`, object URLs, the anchor click, resetting the
  file input and the success `alert`. The export's error path (App.tsx:242-245), which sets
  the export error when serialising or any of these download steps throws, is left out
  together with the download itself: `HandleExportData` only builds the document.
- Copying to the clipboard and the two-second copied flag. Handlers only reset `isCopied`.
- The GenAI SDK call and the API key. The backend is the `generate` parameter.
  `crypto.randomUUID()` and `Date.now()` are handler arguments.
- The six seed templates and the default system instruction text. Both are arguments of the
  application state.
- Overlapping asynchronous requests and the interleaving of other handlers inside one
  request. `HandleEnhance` and `ResolveEnhance` are the two halves of the handler, and other
  handlers may run between them.
- App.PromptEnhancer.HandleEnhance: requires `!isLoading`. The handler itself does not check
  this; the button's `disabled={isLoading || ...}` does.
- Identifier uniqueness is not enforced by the program, because imports may bring in duplicates.
  The distinct-id clauses hold only when the fresh id is unused.
