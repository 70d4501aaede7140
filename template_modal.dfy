/**
 * The template dialog: it edits a title and a body, validates them on save and builds the
 * template it hands to its parent.
 */
module TemplateModal {
  import opened Wrappers
  import opened Text
  import opened Templates

  /**
   * The template `handleSave` passes to `onSave`, or None when validation fails. `editing` is
   * the `template` property (None when adding); `freshId` stands for `crypto.randomUUID()`,
   * which is used only when the edited template's id is empty or there is none.
   */
  function BuildTemplate(editing: Option<PromptTemplate>, title: string, body: string, freshId: string): (r: Option<PromptTemplate>)
    ensures r.None? <==> IsBlank(title) || IsBlank(body)
    ensures r.Some? ==> r.value.title == Trim(title) && r.value.prompt == body
    ensures r.Some? && editing.Some? && editing.value.id != "" ==> r.value.id == editing.value.id
    ensures r.Some? && (editing.None? || editing.value.id == "") ==> r.value.id == freshId
  {
    if IsBlank(title) || IsBlank(body) then None
    else
      var id := if editing.Some? && editing.value.id != "" then editing.value.id else freshId;
      Some(PromptTemplate(id, Trim(title), body))
  }

  /** Every template the dialog saves has a non-blank title with no surrounding white space
      and a non-blank body. */
  lemma {:induction false} BuiltTemplateIsWellFormed(editing: Option<PromptTemplate>, title: string, body: string, freshId: string)
    requires BuildTemplate(editing, title, body, freshId).Some?
    ensures var t := BuildTemplate(editing, title, body, freshId).value;
      !IsBlank(t.title) && Trim(t.title) == t.title && !IsBlank(t.prompt)
  {
    TrimIdempotent(title);
  }

  /** The dialog's own fields, and the `template` property it was last opened with. */
  class TemplateEditor {
    var title: string
    var promptContent: string
    var error: string
    var template: Option<PromptTemplate>

    constructor ()
      ensures title == "" && promptContent == "" && error == "" && template.None?
    {
      title, promptContent, error, template := "", "", "", None;
    }

    /** The effect that runs when the dialog opens: fields come from the edited template, or
        are emptied when adding; the error is cleared either way. */
    method Open(editing: Option<PromptTemplate>)
      modifies this
      ensures template == editing && error == ""
      ensures editing.Some? ==> title == editing.value.title && promptContent == editing.value.prompt
      ensures editing.None? ==> title == "" && promptContent == ""
    {
      template := editing;
      match editing {
        case Some(t) =>
          title := t.title;
          promptContent := t.prompt;
        case None =>
          title := "";
          promptContent := "";
      }
      error := "";
    }

    /** The title input. */
    method SetTitle(value: string)
      modifies this
      ensures title == value
      ensures promptContent == old(promptContent) && error == old(error) && template == old(template)
    {
      title := value;
    }

    /** The body text area. */
    method SetPromptContent(value: string)
      modifies this
      ensures promptContent == value
      ensures title == old(title) && error == old(error) && template == old(template)
    {
      promptContent := value;
    }

    /**
     * `handleSave`: a blank title or body sets the error message and saves nothing;
     * otherwise the built template is returned (the `onSave` call) and the fields stay.
     */
    method Save(modalError: string, freshId: string) returns (saved: Option<PromptTemplate>)
      modifies this
      ensures saved == BuildTemplate(template, title, promptContent, freshId)
      ensures saved.None? <==> IsBlank(title) || IsBlank(promptContent)
      ensures error == (if saved.None? then modalError else old(error))
      ensures title == old(title) && promptContent == old(promptContent) && template == old(template)
    {
      if IsBlank(title) || IsBlank(promptContent) {
        error := modalError;
        saved := None;
        return;
      }
      saved := BuildTemplate(template, title, promptContent, freshId);
    }
  }
}
