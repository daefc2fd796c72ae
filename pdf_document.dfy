/**
 * The choice of PDF resume document: "bostami" and "ryancv" name the two
 * templates, and every other id falls back to the bostami one.
 */
module PdfDocument {
  import opened Wrappers
  import opened JsValue

  /** The two document components. */
  datatype DocumentTemplate = BostamiDocument | RyancvDocument

  /** `DOCUMENT_TEMPLATES[id]` for the registry's own ids. */
  function TemplateNamed(id: string): (r: Option<DocumentTemplate>)
    ensures r.Some? <==> id == "bostami" || id == "ryancv"
  {
    if id == "bostami" then Some(BostamiDocument)
    else if id == "ryancv" then Some(RyancvDocument)
    else None
  }

  /** What `DOCUMENT_TEMPLATES[id]` finds: a template, or a member every object inherits from `Object.prototype`. */
  datatype Found = Template(template: DocumentTemplate) | Inherited(name: string)

  /**
   * `getDocumentTemplate(templateId)` as written: `DOCUMENT_TEMPLATES[templateId]
   * || DOCUMENT_TEMPLATES.bostami`, where `None` is an omitted id. The lookup
   * also sees the names the registry object inherits, which are truthy and so
   * are returned in place of a template.
   */
  function GetDocumentTemplateAsWritten(templateId: Option<string>): (r: Found)
    ensures templateId == Some("ryancv") ==> r == Template(RyancvDocument)
    ensures templateId.None? || templateId == Some("bostami") ==> r == Template(BostamiDocument)
    ensures templateId.Some? && templateId.value in ObjectPrototypeMembers ==> r == Inherited(templateId.value)
  {
    var key := if templateId.None? then "bostami" else templateId.value;
    match TemplateNamed(key)
    case Some(template) => Template(template)
    case None => if key in ObjectPrototypeMembers then Inherited(key) else Template(BostamiDocument)
  }

  /** A `cvTemplate` of "toString" selects a function that is not a document component. */
  lemma PrototypeNameSelectsNoDocument()
    ensures GetDocumentTemplateAsWritten(Some("toString")) == Inherited("toString")
  {
    assert "toString" in ObjectPrototypeMembers;
  }

  /** `getDocumentTemplate(templateId)` over the registry's own ids: never without a document. */
  function GetDocumentTemplate(templateId: Option<string>): (r: DocumentTemplate)
    ensures r == RyancvDocument <==> templateId == Some("ryancv")
    ensures templateId.Some? && TemplateNamed(templateId.value).Some? ==> Some(r) == TemplateNamed(templateId.value)
  {
    var key := if templateId.None? then "bostami" else templateId.value;
    match TemplateNamed(key)
    case Some(template) => template
    case None => BostamiDocument
  }

  /** The two lookups agree on every id that is not an inherited member's name. */
  lemma LookupAgrees(templateId: Option<string>)
    requires templateId.None? || templateId.value !in ObjectPrototypeMembers
    ensures GetDocumentTemplateAsWritten(templateId) == Template(GetDocumentTemplate(templateId))
  {
  }
}
