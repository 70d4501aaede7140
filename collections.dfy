/**
 * The pure list updaters the application applies to its template list: look-up by id
 * (`templates.find(t => t.id === id)`) and replacement by id
 * (`prev.map(t => t.id === template.id ? template : t)`). Deletion by id is
 * `Lists.WithoutId`.
 */
module Collections {
  import opened Wrappers
  import opened Templates
  import Lists

  /** A template carrying `id`, or None when no template does; `FindFirstTemplate` shows it
      is the first one. */
  function FindTemplate(ts: seq<PromptTemplate>, id: string): (r: Option<PromptTemplate>)
    ensures r.None? <==> forall t :: t in ts ==> t.id != id
    ensures r.Some? ==> r.value in ts && r.value.id == id
  {
    if ts == [] then None
    else if ts[0].id == id then Some(ts[0])
    else
      assert forall t :: t in ts ==> t == ts[0] || t in ts[1..];
      FindTemplate(ts[1..], id)
  }

  /** The template found is the one at the first position whose id matches. */
  lemma {:induction false} FindFirstTemplate(ts: seq<PromptTemplate>, id: string, k: nat)
    requires k < |ts| && ts[k].id == id
    requires forall j :: 0 <= j < k ==> ts[j].id != id
    ensures FindTemplate(ts, id) == Some(ts[k])
  {
    if k > 0 {
      FindFirstTemplate(ts[1..], id, k - 1);
    }
  }

  /** Every template whose id is `t.id` becomes `t`; every other one, and the length, stay. */
  function ReplaceTemplate(ts: seq<PromptTemplate>, t: PromptTemplate): (r: seq<PromptTemplate>)
    ensures |r| == |ts|
    ensures forall i :: 0 <= i < |ts| ==> r[i].id == ts[i].id
    ensures forall i :: 0 <= i < |ts| && ts[i].id != t.id ==> r[i] == ts[i]
    ensures forall i :: 0 <= i < |ts| && ts[i].id == t.id ==> r[i] == t
  {
    seq(|ts|, i requires 0 <= i < |ts| => if ts[i].id == t.id then t else ts[i])
  }

  /** Replacing an id no template carries changes nothing. */
  lemma ReplaceAbsentId(ts: seq<PromptTemplate>, t: PromptTemplate)
    requires forall u :: u in ts ==> u.id != t.id
    ensures ReplaceTemplate(ts, t) == ts
  {
  }

  /** Replacing keeps the identifiers, so keeps them distinct. */
  lemma ReplaceKeepsDistinct(ts: seq<PromptTemplate>, t: PromptTemplate)
    requires Lists.DistinctIds(ts, TemplateId)
    ensures Lists.DistinctIds(ReplaceTemplate(ts, t), TemplateId)
  {
  }

  /** After a replacement, looking the id up finds the new template whenever the id was there
      (at some position `k`). */
  lemma {:induction false} FindAfterReplace(ts: seq<PromptTemplate>, t: PromptTemplate, k: nat)
    requires k < |ts| && ts[k].id == t.id
    ensures FindTemplate(ReplaceTemplate(ts, t), t.id) == Some(t)
  {
  }

  /** Replacing twice with the same template is replacing once. */
  lemma ReplaceIdempotent(ts: seq<PromptTemplate>, t: PromptTemplate)
    ensures ReplaceTemplate(ReplaceTemplate(ts, t), t) == ReplaceTemplate(ts, t)
  {
  }
}
