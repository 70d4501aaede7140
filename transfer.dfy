/**
 * Export and import of the whole state as one document `{history, templates, settings}`.
 * Serialising and parsing the text, and reading and writing the file, are outside the model:
 * a document is the parsed value. Import checks each field by its shape alone and takes
 * the well-shaped ones.
 */
module Transfer {
  import opened HistorySidebar
  import opened Templates
  import opened SettingsModal

  /**
   * One property of the parsed document as JavaScript sees it: missing (`undefined`), `null`,
   * a number, string or boolean, an array, or another object. Under an array or an object
   * the model keeps the value the program goes on to use as the slice; the program checks
   * nothing beneath the shape.
   */
  datatype Field<T> = Undefined | Null | Primitive | ArrayValue(items: T) | ObjectValue(fields: T)

  /** What `JSON.parse` returned: `null`, or any other value whose three properties are then
      read (a number, string or array has all three `Undefined`). */
  datatype Parsed = NullDocument | Document(history: Field<seq<HistoryItem>>, templates: Field<seq<PromptTemplate>>, settings: Field<AppSettings>)

  /** The three persisted slices together. */
  datatype Snapshot = Snapshot(history: seq<HistoryItem>, templates: seq<PromptTemplate>, settings: AppSettings)

  /** `Array.isArray(f)`. */
  predicate IsArray<T>(f: Field<T>)
    ensures IsArray(f) ==> IsNonNullObject(f)
  {
    f.ArrayValue?
  }

  /** `typeof f === 'object' && f !== null`, which arrays pass too. */
  predicate IsNonNullObject<T>(f: Field<T>)
    ensures f.Null? || f.Undefined? || f.Primitive? ==> !IsNonNullObject(f)
  {
    f.ArrayValue? || f.ObjectValue?
  }

  /** The value under an array or object field. */
  function Content<T>(f: Field<T>): T
    requires IsNonNullObject(f)
  {
    if f.ArrayValue? then f.items else f.fields
  }

  /** `handleExportData`'s document: each slice in the shape import accepts. */
  function Export(s: Snapshot): (d: Parsed)
    ensures d.Document? && IsArray(d.history) && IsArray(d.templates) && IsNonNullObject(d.settings)
    ensures Content(d.history) == s.history && Content(d.templates) == s.templates
    ensures Content(d.settings) == s.settings
  {
    Document(ArrayValue(s.history), ArrayValue(s.templates), ObjectValue(s.settings))
  }

  /**
   * The confirmed import of a non-null document: history and templates are replaced only by
   * arrays, settings by any non-null object; every other field leaves its slice as it was.
   */
  function Accept(d: Parsed, s: Snapshot): (r: Snapshot)
    requires d.Document?
    ensures r.history == (if IsArray(d.history) then Content(d.history) else s.history)
    ensures r.templates == (if IsArray(d.templates) then Content(d.templates) else s.templates)
    ensures r.settings == (if IsNonNullObject(d.settings) then Content(d.settings) else s.settings)
  {
    Snapshot(
      if IsArray(d.history) then d.history.items else s.history,
      if IsArray(d.templates) then d.templates.items else s.templates,
      if IsNonNullObject(d.settings) then Content(d.settings) else s.settings)
  }

  /** Exporting and importing the export gives back exactly the exported state, whatever the
      state was before the import. */
  lemma ImportOfExport(s: Snapshot, before: Snapshot)
    ensures Accept(Export(s), before) == s
  {
  }

  /** Each slice is decided by its own field alone: two documents that agree on a field give
      that slice the same value. */
  lemma FieldsAreIndependent(d1: Parsed, d2: Parsed, s: Snapshot)
    requires d1.Document? && d2.Document?
    ensures d1.history == d2.history ==> Accept(d1, s).history == Accept(d2, s).history
    ensures d1.templates == d2.templates ==> Accept(d1, s).templates == Accept(d2, s).templates
    ensures d1.settings == d2.settings ==> Accept(d1, s).settings == Accept(d2, s).settings
  {
  }

  /** Partial acceptance: a document whose templates field is an object rather than an array
      leaves the templates as they were while its settings object still replaces the settings. */
  lemma PartialAcceptance(s: Snapshot, h: Field<seq<HistoryItem>>, ts: seq<PromptTemplate>, settings: AppSettings)
    ensures var r := Accept(Document(h, ObjectValue(ts), ObjectValue(settings)), s);
      r.templates == s.templates && r.settings == settings
  {
  }

  /** A document whose fields are all missing, null or primitive changes nothing. */
  lemma IllShapedDocumentChangesNothing(d: Parsed, s: Snapshot)
    requires d.Document? && !IsArray(d.history) && !IsArray(d.templates) && !IsNonNullObject(d.settings)
    ensures Accept(d, s) == s
  {
  }
}
