/** The submit handler's decision: abort on a duplicate name, otherwise
    update the open mood (edit mode) or create a new one. */
module Reconciler {
  import opened Wrappers
  import opened Text
  import opened Moods

  /** What a submit dispatches. `Abort` carries the alert text; `Update`
      targets the open id exactly as the handler holds it. */
  datatype Action = Abort(message: string) | Update(target: Option<Id>, body: Body) | Create(body: Body)

  const NAME_TAKEN := "Esse humor já existe!"
  const NAME_TAKEN_BY_OTHER := "Esse nome já existe em outro humor!"

  /** The submit decision. `existentes` are the ids the store's name filter
      returned for the trimmed name, in the store's order; only the first is
      compared with the open id, and there is no check for an empty name. */
  function Reconcile(form: Form, existentes: seq<Id>, modoEdicao: bool, humorAtualId: Option<Id>): (r: Action)
    ensures r.Abort? ==> r.message == if modoEdicao then NAME_TAKEN_BY_OTHER else NAME_TAKEN
    ensures r.Update? ==> modoEdicao && r.target == humorAtualId
    ensures r.Create? ==> !modoEdicao
    ensures !r.Abort? ==> r.body == BuildBody(form)
  {
    if modoEdicao then
      if |existentes| > 0 && Some(existentes[0]) != humorAtualId then Abort(NAME_TAKEN_BY_OTHER)
      else Update(humorAtualId, BuildBody(form))
    else
      if |existentes| > 0 then Abort(NAME_TAKEN)
      else Create(BuildBody(form))
  }

  /** Create mode: any match aborts, and nothing is dispatched. */
  lemma CreateAbortsOnAnyMatch(form: Form, existentes: seq<Id>, humorAtualId: Option<Id>)
    ensures var r := Reconcile(form, existentes, false, humorAtualId);
            (r.Abort? <==> |existentes| > 0) && (!r.Abort? ==> r == Create(BuildBody(form)))
  {
  }

  /** Edit mode: the submit aborts exactly when the first match is another
      mood; otherwise the open mood is updated. */
  lemma EditAbortsOnOtherFirstMatch(form: Form, existentes: seq<Id>, humorAtualId: Option<Id>)
    ensures var r := Reconcile(form, existentes, true, humorAtualId);
            (r.Abort? <==> |existentes| > 0 && Some(existentes[0]) != humorAtualId)
            && (!r.Abort? ==> r == Update(humorAtualId, BuildBody(form)))
  {
  }

  /** The name is not checked for emptiness: a blank name that the filter does
      not match is created with the empty name. */
  lemma BlankNameIsDispatched(form: Form, humorAtualId: Option<Id>)
    requires forall k :: 0 <= k < |form.humor| ==> IsSpace(form.humor[k])
    ensures Reconcile(form, [], false, humorAtualId).Create?
    ensures Reconcile(form, [], false, humorAtualId).body.humor == ""
  {
    TrimEmptyIffBlank(form.humor);
  }

  /** The store's exact-match name filter over its catalog: the ids of the
      moods named `name`, in catalog order. (The store is not part of the
      client; this is the contract the client relies on.) */
  function MatchingIds(catalog: seq<MoodRecord>, name: string): (r: seq<Id>)
    ensures |r| == 0 <==> forall i :: 0 <= i < |catalog| ==> catalog[i].humor != name
    ensures |r| > 0 ==> exists i :: 0 <= i < |catalog| && catalog[i].humor == name && catalog[i].id == r[0]
  {
    if catalog == [] then []
    else if catalog[0].humor == name then [catalog[0].id] + MatchingIds(catalog[1..], name)
    else
      var rest := MatchingIds(catalog[1..], name);
      assert |rest| > 0 ==> exists i :: 1 <= i < |catalog| && catalog[i].humor == name && catalog[i].id == rest[0] by {
        if |rest| > 0 {
          var j :| 0 <= j < |catalog[1..]| && catalog[1..][j].humor == name && catalog[1..][j].id == rest[0];
          assert catalog[j + 1] == catalog[1..][j];
        }
      }
      rest
  }

  /** No two moods of the catalog share a name and no two share an id. */
  predicate UniqueNames(catalog: seq<MoodRecord>)
  {
    forall i, j :: 0 <= i < j < |catalog| ==> catalog[i].humor != catalog[j].humor && catalog[i].id != catalog[j].id
  }

  /** Creating a mood whose trimmed name is already in the catalog is refused. */
  lemma CreateRefusesExistingName(catalog: seq<MoodRecord>, form: Form, humorAtualId: Option<Id>)
    ensures Reconcile(form, MatchingIds(catalog, Trim(form.humor)), false, humorAtualId).Abort?
            <==> exists i :: 0 <= i < |catalog| && catalog[i].humor == Trim(form.humor)
  {
  }

  /** With unique names the first match is the only one: it is some mood
      other than `id` exactly when another mood carries the name. */
  lemma FirstMatchIsOther(catalog: seq<MoodRecord>, name: string, id: Id)
    requires UniqueNames(catalog)
    ensures var ids := MatchingIds(catalog, name);
            (|ids| > 0 && ids[0] != id)
            <==> exists i :: 0 <= i < |catalog| && catalog[i].humor == name && catalog[i].id != id
  {
    var ids := MatchingIds(catalog, name);
    if |ids| > 0 {
      var i :| 0 <= i < |catalog| && catalog[i].humor == name && catalog[i].id == ids[0];
    }
  }

  /** In a catalog with unique names, an edit of mood `id` is refused exactly
      when another mood already carries the trimmed name; the edited mood is
      exempt from colliding with itself. */
  lemma EditRefusesOtherName(catalog: seq<MoodRecord>, form: Form, id: Id)
    requires UniqueNames(catalog)
    ensures Reconcile(form, MatchingIds(catalog, Trim(form.humor)), true, Some(id)).Abort?
            <==> exists i :: 0 <= i < |catalog| && catalog[i].humor == Trim(form.humor) && catalog[i].id != id
  {
    var ids := MatchingIds(catalog, Trim(form.humor));
    EditAbortsOnOtherFirstMatch(form, ids, Some(id));
    FirstMatchIsOther(catalog, Trim(form.humor), id);
  }

  /** Only the first match is compared: when two moods carry the name and the
      edited one comes first, the edit goes through. */
  lemma EditComparesOnlyFirstMatch(form: Form, id: Id, other: Id)
    requires other != id
    ensures Reconcile(form, [id, other], true, Some(id)) == Update(Some(id), BuildBody(form))
  {
  }
}
