/** The `PromptTemplate` record. The six seed templates the program ships with are a
    constructor argument of the application state, not part of this module. */
module Templates {

  datatype PromptTemplate = PromptTemplate(id: string, title: string, prompt: string)

  /** Reads a template's `id`; the key the template list is searched and filtered on. */
  function TemplateId(t: PromptTemplate): string {
    t.id
  }
}
