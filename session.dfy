/** The page's session: the open mood and the edit flag the handlers share,
    the visibility of the detail modal, and what the page currently shows. */
module SessionState {
  import opened Wrappers
  import opened Moods
  import opened Reconciler
  import opened Display

  class Session {
    /** The mood opened last (`humorAtualId`); `None` is `null`. */
    var humorAtualId: Option<Id>
    /** Whether a submit updates the open mood (`modoEdicao`). */
    var modoEdicao: bool
    /** Whether the detail modal is shown (it is when it lacks `hidden`). */
    var modalVisible: bool
    /** Detail view: title, the seven lists and the colour boxes. */
    var title: string
    var lists: seq<seq<string>>
    var swatches: seq<string>
    /** The catalog grid and the statistics panel. */
    var grid: seq<Card>
    var statCards: seq<StatCard>

    /** Edit mode is only ever entered with a mood open, and is left
        together with it, so an update always has a target. */
    ghost predicate Valid()
      reads this
    {
      modoEdicao ==> humorAtualId.Some?
    }

    /** The page as loaded: nothing open, not editing, the modal hidden. */
    constructor ()
      ensures Valid()
      ensures humorAtualId == None && !modoEdicao && !modalVisible
      ensures title == "" && lists == [] && swatches == [] && grid == [] && statCards == []
    {
      humorAtualId := None;
      modoEdicao := false;
      modalVisible := false;
      title := "";
      lists := [];
      swatches := [];
      grid := [];
      statCards := [];
    }

    /** `abrirHumor(id)`: the id is recorded before anything is fetched.
        `loaded` is the fetched record (None when the fetch fails) and
        `viewRecorded` whether the view was registered; the modal opens
        only when both succeed. The edit flag is left as it was. */
    method OpenMood(id: Id, loaded: Option<MoodRecord>, viewRecorded: bool) returns (shown: bool)
      requires Valid()
      modifies this
      ensures Valid()
      ensures humorAtualId == Some(id)
      ensures modoEdicao == old(modoEdicao)
      ensures shown <==> loaded.Some? && viewRecorded
      ensures modalVisible == (if shown then true else old(modalVisible))
      ensures loaded.Some? ==> title == loaded.value.humor && lists == DetailLists(loaded.value)
                                && swatches == OrEmpty(loaded.value.cores)
      ensures loaded.None? ==> title == old(title) && lists == old(lists) && swatches == old(swatches)
      ensures grid == old(grid) && statCards == old(statCards)
    {
      humorAtualId := Some(id);
      shown := false;
      if loaded.Some? {
        var m := loaded.value;
        title := m.humor;
        lists := DetailItems(m);
        swatches := Swatches(m.cores);
        if viewRecorded {
          modalVisible := true;
          shown := true;
        }
      }
    }

    /** The close button: hides the modal and nothing else. */
    method Close()
      requires Valid()
      modifies this
      ensures Valid()
      ensures !modalVisible
      ensures humorAtualId == old(humorAtualId) && modoEdicao == old(modoEdicao)
      ensures title == old(title) && lists == old(lists) && swatches == old(swatches)
      ensures grid == old(grid) && statCards == old(statCards)
    {
      modalVisible := false;
    }

    /** `window.onclick`: a click on the modal's backdrop hides it; any
        other click changes nothing. */
    method ClickWindow(onBackdrop: bool)
      requires Valid()
      modifies this
      ensures Valid()
      ensures modalVisible == (old(modalVisible) && !onBackdrop)
      ensures humorAtualId == old(humorAtualId) && modoEdicao == old(modoEdicao)
      ensures title == old(title) && lists == old(lists) && swatches == old(swatches)
      ensures grid == old(grid) && statCards == old(statCards)
    {
      if onBackdrop {
        modalVisible := false;
      }
    }

    /** The edit button. Without an open mood it does nothing. Otherwise it
        enters edit mode before fetching; `loaded` is the fetched record.
        The returned form pre-fill exists exactly when the record came back
        with all its lists, and only then is the modal hidden. */
    method BeginEdit(loaded: Option<MoodRecord>) returns (prefill: Option<Form>)
      requires Valid()
      modifies this
      ensures Valid()
      ensures humorAtualId == old(humorAtualId)
      ensures modoEdicao == (old(modoEdicao) || old(humorAtualId).Some?)
      ensures old(humorAtualId).None? || loaded.None? ==> prefill.None?
      ensures old(humorAtualId).Some? && loaded.Some? ==> prefill == Prefill(loaded.value)
      ensures modalVisible == (old(modalVisible) && prefill.None?)
      ensures title == old(title) && lists == old(lists) && swatches == old(swatches)
      ensures grid == old(grid) && statCards == old(statCards)
    {
      prefill := None;
      if humorAtualId.None? {
        return;
      }
      modoEdicao := true;
      if loaded.Some? {
        prefill := Prefill(loaded.value);
        if prefill.Some? {
          modalVisible := false;
        }
      }
    }

    /** The delete button. The request is issued when a mood is open and the
        user confirms; `deleteOk` is whether it completed, and only then is
        the modal hidden. Neither the open id nor the edit flag is cleared. */
    method Delete(confirmed: bool, deleteOk: bool) returns (issued: bool)
      requires Valid()
      modifies this
      ensures Valid()
      ensures issued <==> old(humorAtualId).Some? && confirmed
      ensures modalVisible == (old(modalVisible) && !(issued && deleteOk))
      ensures humorAtualId == old(humorAtualId) && modoEdicao == old(modoEdicao)
      ensures title == old(title) && lists == old(lists) && swatches == old(swatches)
      ensures grid == old(grid) && statCards == old(statCards)
    {
      issued := false;
      if humorAtualId.None? {
        return;
      }
      if !confirmed {
        return;
      }
      issued := true;
      if deleteOk {
        modalVisible := false;
      }
    }

    /** The form submit. `existentes` are the ids the name filter returned
        and `saveOk` whether the dispatched request completed. The action is
        the reconciler's decision on the session as it stood; an update
        always targets the open mood. A completed edit leaves edit mode and
        forgets the open mood; nothing else changes the session. */
    method Submit(form: Form, existentes: seq<Id>, saveOk: bool) returns (action: Action, saved: bool)
      requires Valid()
      modifies this
      ensures Valid()
      ensures action == Reconcile(form, existentes, old(modoEdicao), old(humorAtualId))
      ensures action.Update? ==> old(humorAtualId).Some? && action.target == old(humorAtualId)
      ensures saved <==> !action.Abort? && saveOk
      ensures saved && old(modoEdicao) ==> humorAtualId == None && !modoEdicao
      ensures !(saved && old(modoEdicao)) ==> humorAtualId == old(humorAtualId) && modoEdicao == old(modoEdicao)
      ensures modalVisible == old(modalVisible)
      ensures title == old(title) && lists == old(lists) && swatches == old(swatches)
      ensures grid == old(grid) && statCards == old(statCards)
    {
      action := Reconcile(form, existentes, modoEdicao, humorAtualId);
      saved := !action.Abort? && saveOk;
      if saved && modoEdicao {
        modoEdicao := false;
        humorAtualId := None;
      }
    }

    /** `carregarHumores`: a successful fetch replaces the grid with one card
        per mood; a failed one leaves it. */
    method RefreshCatalog(fetched: Option<seq<MoodRecord>>)
      requires Valid()
      modifies this
      ensures Valid()
      ensures fetched.Some? ==> |grid| == |fetched.value|
                                && forall i :: 0 <= i < |grid| ==> grid[i] == CardFor(fetched.value[i])
      ensures fetched.None? ==> grid == old(grid)
      ensures humorAtualId == old(humorAtualId) && modoEdicao == old(modoEdicao)
      ensures modalVisible == old(modalVisible)
      ensures title == old(title) && lists == old(lists) && swatches == old(swatches)
      ensures statCards == old(statCards)
    {
      if fetched.Some? {
        grid := CatalogCards(fetched.value);
      }
    }

    /** `carregarEstatisticas`: a successful fetch replaces the panel with
        one card per statistic; a failed one leaves it. */
    method RefreshStatistics(fetched: Option<seq<UsageStat>>)
      requires Valid()
      modifies this
      ensures Valid()
      ensures fetched.Some? ==> |statCards| == |fetched.value|
                                && forall i :: 0 <= i < |statCards| ==>
                                     statCards[i] == StatCard(fetched.value[i].humor, fetched.value[i].uso,
                                                              LastAccess(fetched.value[i].ultimaConsultas))
      ensures fetched.None? ==> statCards == old(statCards)
      ensures humorAtualId == old(humorAtualId) && modoEdicao == old(modoEdicao)
      ensures modalVisible == old(modalVisible)
      ensures title == old(title) && lists == old(lists) && swatches == old(swatches)
      ensures grid == old(grid)
    {
      if fetched.Some? {
        statCards := StatCards(fetched.value);
      }
    }
  }

  /** A whole edit of a stored mood without touching the form: open it,
      press edit, submit the pre-filled form while the name filter finds
      nothing or only this mood. The update carries the stored lists
      unchanged and the colours padded to three, and the session ends with
      nothing open and edit mode left. */
  method EditUnchanged(m: MoodRecord, existentes: seq<Id>) returns (action: Action, open: Option<Id>, editing: bool)
    requires IsStored(m)
    requires existentes == [] || existentes == [m.id]
    ensures action == Update(Some(m.id), Body(m.humor, EditColours(m.cores),
              m.frases.value, m.dicas_estudo.value, m.musicas.value, m.snacks.value,
              m.emojis.value, m.metas_rapidas.value, m.descanso.value))
    ensures |action.body.cores| == 3
    ensures open == None && !editing
  {
    var s := new Session();
    var shown := s.OpenMood(m.id, Some(m), true);
    var prefill := s.BeginEdit(Some(m));
    EditRoundTrip(m);
    UnchangedEditSendsThreeColours(m.cores);
    var saved;
    action, saved := s.Submit(prefill.value, existentes, true);
    open, editing := s.humorAtualId, s.modoEdicao;
  }

  /** A create submit on a fresh page: it aborts exactly when the filter
      found the name, and never opens a mood or enters edit mode. */
  method CreateSubmit(form: Form, existentes: seq<Id>) returns (action: Action, open: Option<Id>, editing: bool)
    ensures existentes != [] <==> action == Abort(NAME_TAKEN)
    ensures existentes == [] ==> action == Create(BuildBody(form))
    ensures open == None && !editing
  {
    var s := new Session();
    var saved;
    action, saved := s.Submit(form, existentes, true);
    open, editing := s.humorAtualId, s.modoEdicao;
  }
}
