# Humor Acadêmico — client session and form logic in Dafny

This project models the browser client of the mood catalog (`src/JS/script.js`).
The client lists moods as cards and opens one in a detail modal. From the modal
the user can edit or delete the mood. A form creates a new mood or saves an
edit, and a statistics panel shows how often each mood was opened and when it
was last opened.

The model has three layers.

- **Session** (`session.dfy`, module `SessionState`). The two globals
  `humorAtualId` and `modoEdicao`, the modal's visibility and what the page
  shows live in the fields of one class. The handlers `abrirHumor`, the close
  button, the window click, the edit button, the delete button, the form submit
  and the two refresh functions are its methods. Every method keeps the
  invariant that edit mode implies an open mood. Every method states its whole
  new state.
- **Form logic** (`moods.dfy`, `reconciler.dfy`, and `text.dfy` and
  `lists.dfy` under them). These are pure functions:
  - the duplicate-name decision of the submit handler;
  - the request body (colours filtered for empty values; each list split on
    `","`, each piece trimmed, empty pieces dropped);
  - the pre-fill of the edit form (colours defaulted to `#000000`, lists joined
    with `", "`).

  JavaScript's `trim`, `split` on one character, `join` and `filter` are
  modelled once in `Text` and `Lists`.
- **Display** (`display.dfy`). This covers what each renderer shows: the
  catalog cards and their background default, the detail lists with blank
  items suppressed, the colour boxes, and the statistics cards with the last
  access or `"Nunca"`.

The remote store never appears directly. Each `fetch` appears as the value it
delivers, passed in as a parameter; `None` or `false` stands for a failed
request. The dispatched request appears as the `Action` that `Submit` returns.

Where the code departs from the documented design, the model follows the code:

- The submit handler does not reject an empty name. A blank name is trimmed to
  `""` and sent to the name filter like any other (`Reconciler.BlankNameIsDispatched`).
- In edit mode only the first id the name filter returns is compared with the
  open mood (`Reconciler.EditComparesOnlyFirstMatch`).
- An unchanged edit does not give back a mood with fewer than three colours.
  The edit form fills every missing colour with `#000000`, and the submit sends
  all three (`Moods.EditColoursPadStored`, `Moods.EditRoundTrip`). The lists
  and the name do come back unchanged.
- `abrirHumor` waits for the view to be registered. The modal opens only when
  both the record fetch and the registration succeed (`SessionState.Session.OpenMood`).
- Opening a mood leaves `modoEdicao` as it is. Deleting clears neither
  `humorAtualId` nor `modoEdicao`, so a later submit can still be an update of
  the deleted id.

Everything modelled comes from `src/JS/script.js`.

## Model

| member | source | states |
|---|---|---|
| Lists.Filter | src/JS/script.js:255-262 | `Array.prototype.filter`: the result is never longer than the input (its membership and order are FilterMembers and FilterConcat) |
| Lists.FilterMembers | src/JS/script.js:255-262 | `filter` keeps exactly the elements that satisfy the predicate: every result element is an input element that satisfies it, and every input element that satisfies it is in the result |
| Lists.FilterConcat | src/JS/script.js:256-262 | filtering distributes over concatenation, so order and duplicates are preserved |
| Lists.FilterKeepsAll | src/JS/script.js:255 | a sequence whose elements all satisfy the predicate is its own filter |
| Text.IsSpace | src/JS/script.js:236 | the characters `trim` removes: JavaScript's white-space and line-terminator code points; the comma is not among them |
| Text.Trim | src/JS/script.js:236 | the trimmed string has no white space at either end |
| Text.TrimShape | src/JS/script.js:236 | the trimmed string is the slice of the input between its leading and its trailing white space, and only white space lies outside it |
| Text.TrimOfTrimmed | src/JS/script.js:256-262 | trimming a string with no white space at either end returns it unchanged |
| Text.TrimIdempotent | src/JS/script.js:236 | trimming twice is trimming once |
| Text.TrimEmptyIffBlank | src/JS/script.js:128 | trim yields `""` exactly when every character is white space |
| Text.TrimExcludes | src/JS/script.js:256-262 | trimming never introduces a character, so a comma-free piece stays comma-free |
| Text.TrimStartAppend | src/JS/script.js:236 | leading white space is stripped across a concatenation |
| Text.TrimLeadingSpace | src/JS/script.js:236 | a leading white-space character does not change the trimmed value |
| Text.TrimTrailingSpace | src/JS/script.js:236 | a trailing white-space character does not change the trimmed value |
| Text.Split | src/JS/script.js:256-262 | `split(",")` yields at least one piece, and no piece contains the separator |
| Text.Join | src/JS/script.js:197-203 | `join(", ")` of no elements is `""` and of one element is that element (the inverse of split is JoinSplit and NormalizeJoin) |
| Text.SplitWithoutSeparator | src/JS/script.js:256-262 | a string without the separator splits into itself alone |
| Text.SplitConcat | src/JS/script.js:256-262 | splitting at a separator splits the two sides independently |
| Text.JoinSplit | src/JS/script.js:197-203 | joining the pieces of a split with the same separator gives back the input |
| Text.SplitJoin | src/JS/script.js:197-203 | splitting a join of separator-free pieces gives back the pieces |
| Moods.TrimAll | src/JS/script.js:256-262 | `map(s => s.trim())` keeps the length, and element i is the trim of piece i |
| Moods.TrimAllConcat | src/JS/script.js:256-262 | trimming every piece distributes over concatenation |
| Moods.PiecesNormalize | src/JS/script.js:256-262 | trimmed comma-free pieces with the empty ones dropped are all entries: non-empty, trimmed and comma-free |
| Moods.NormalizeList | src/JS/script.js:256-262 | every element of a normalised list is non-empty, trimmed and comma-free |
| Moods.NormalizeListConcat | src/JS/script.js:256-262 | the normalised list of `a,b` is that of `a` followed by that of `b`, so order and duplicates are preserved |
| Moods.NormalizeListPiece | src/JS/script.js:256-262 | comma-free input normalises to its trim, or to nothing when that is empty |
| Moods.NormalizeListTrimmedPiece | src/JS/script.js:256-262 | a single entry normalises to itself |
| Moods.NormalizeListBlankPiece | src/JS/script.js:256-262 | a comma-free blank input normalises to the empty list |
| Moods.NormalizeListDropsBlankPiece | src/JS/script.js:256-262 | a blank piece between two commas contributes nothing |
| Moods.NormalizeListLeadingSpace | src/JS/script.js:256-262 | a leading space does not change the normalised list |
| Moods.NormalizeListEntryThen | src/JS/script.js:197-203 | an entry followed by `", "` and a tail normalises to the entry followed by the tail's list |
| Moods.NormalizeListEmpty | src/JS/script.js:256-262 | the empty string normalises to the empty list |
| Moods.NormalizeJoin | src/JS/script.js:197-203 | a list of entries joined with `", "` normalises back to itself |
| Moods.ColourOr | src/JS/script.js:193-195 | `cores?.[k] \|\| fallback` is the k-th colour when it is present and non-empty, and the fallback otherwise |
| Moods.ColourPayload | src/JS/script.js:255 | the colour payload is exactly the non-empty inputs among the three, in input order, so it has at most three elements, all non-empty |
| Moods.EditColours | src/JS/script.js:193-195 | the edit form always shows three non-empty colours, and slot k shows the k-th stored colour whenever that is present and non-empty |
| Moods.BuildBody | src/JS/script.js:253-263 | the body's name is trimmed, it has at most three non-empty colours, and every list field holds entries only |
| Moods.Prefill | src/JS/script.js:192-203 | the edit form can be filled exactly when all seven list fields are present, and it carries the stored name |
| Moods.UnchangedEditSendsThreeColours | src/JS/script.js:193-195 | submitting the pre-filled colours unchanged sends exactly those three colours |
| Moods.EditColoursPadStored | src/JS/script.js:193-195 | the edit form shows the stored colours first and `#000000` in the remaining slots, so the colours survive an unchanged edit exactly when there were three |
| Moods.EditRoundTrip | src/JS/script.js:192-203 | pre-filling a stored mood and building the body from the unchanged form gives back its name and all seven lists, and the colours padded to three |
| Reconciler.Reconcile | src/JS/script.js:242-286 | an abort carries the alert of the current mode, an update happens only in edit mode and targets the open id, a create only in create mode, and every dispatched body is the built body |
| Reconciler.CreateAbortsOnAnyMatch | src/JS/script.js:246-250 | in create mode the submit aborts exactly when the filter returns any id, and otherwise creates |
| Reconciler.EditAbortsOnOtherFirstMatch | src/JS/script.js:242-245 | in edit mode the submit aborts exactly when the first returned id differs from the open one, and otherwise updates the open mood |
| Reconciler.BlankNameIsDispatched | src/JS/script.js:236-239 | a blank name is not rejected: with no match it is created with the empty name |
| Reconciler.MatchingIds | src/JS/script.js:239-240 | the name filter returns nothing exactly when no mood has the name, and its first id belongs to a mood with the name |
| Reconciler.CreateRefusesExistingName | src/JS/script.js:246-250 | a create is refused exactly when some mood of the catalog already has the trimmed name |
| Reconciler.FirstMatchIsOther | src/JS/script.js:243 | with unique names, the first match is another mood exactly when another mood has the name |
| Reconciler.EditRefusesOtherName | src/JS/script.js:242-245 | with unique names, an edit is refused exactly when another mood has the trimmed name; the edited mood does not collide with itself |
| Reconciler.EditComparesOnlyFirstMatch | src/JS/script.js:243 | when the open mood is the first of two matches, the edit goes through |
| Display.CardBackground | src/JS/script.js:71 | the card background is the first colour when it is present and non-empty, and `#6c63ff` otherwise |
| Display.CardFor | src/JS/script.js:67-79 | a card carries the mood's id and name and a non-empty background, the first stored colour when that is present and non-empty |
| Display.CatalogCards | src/JS/script.js:55-57 | one card per mood in store order, each with the mood's id, name and background |
| Display.ShownItems | src/JS/script.js:127-128 | a detail list never shows more items than are stored, and an absent list shows none |
| Display.ShownItemsExactly | src/JS/script.js:125-133 | a detail list shows exactly the stored items whose trim is non-empty, untrimmed; an absent list shows nothing |
| Display.ShownItemsConcat | src/JS/script.js:125-133 | the items shown keep the stored order and duplicates |
| Display.ShownItemsOfStoredList | src/JS/script.js:125-133 | a list as a submit stores it is shown in full |
| Display.ListItems | src/JS/script.js:125-133 | the loop of `preencherLista` produces exactly the shown items |
| Display.Swatches | src/JS/script.js:106-111 | one colour box per stored colour, in order; none for absent colours |
| Display.DetailLists | src/JS/script.js:97-103 | the modal always has exactly seven detail lists |
| Display.StoredMoodShownInFull | src/JS/script.js:97-103 | a mood as a submit stores it shows all seven of its lists in full |
| Display.DetailItems | src/JS/script.js:97-103 | the seven detail lists are the shown items of the seven list fields, in page order |
| Display.LastAccess | src/JS/script.js:155-160 | the last access is `Never` exactly when the list is absent or empty, and otherwise its final element |
| Display.LastSeen.Text | src/JS/script.js:155-160 | no recorded access is rendered as `"Nunca"`, and a recorded one as its formatted time |
| Display.StatCards | src/JS/script.js:154-172 | one statistics card per statistic in store order, with its name, use count and last access |
| SessionState.Session.Valid | src/JS/script.js:28-29 | the invariant every handler keeps: edit mode implies an open mood |
| SessionState.Session.constructor | src/JS/script.js:28-29 | the page starts with no open mood, not in edit mode and with nothing shown |
| SessionState.Session.OpenMood | src/JS/script.js:86-122 | the id is recorded whatever happens and the edit flag is kept; a loaded record fills title, lists and swatches; the modal opens exactly when the record loaded and the view was registered |
| SessionState.Session.Close | src/JS/script.js:138 | hides the modal and changes nothing else |
| SessionState.Session.ClickWindow | src/JS/script.js:139-141 | a click on the backdrop hides the modal, and any other click changes nothing |
| SessionState.Session.BeginEdit | src/JS/script.js:183-211 | with no open mood nothing changes; otherwise edit mode is entered, the form pre-fill is that of the loaded record, and the modal is hidden exactly when a pre-fill exists |
| SessionState.Session.Delete | src/JS/script.js:217-227 | the request is issued exactly when a mood is open and the user confirms; the modal is hidden exactly when the request completes; the open id and the edit flag are never cleared |
| SessionState.Session.Submit | src/JS/script.js:233-297 | the action is the decision on the session as it stood, and an update targets the open mood; a save completes exactly when not aborted and the request succeeds; only a completed edit clears the open id and the edit flag |
| SessionState.Session.RefreshCatalog | src/JS/script.js:50-61 | a successful fetch replaces the grid with one card per mood; a failed one leaves it and everything else unchanged |
| SessionState.Session.RefreshStatistics | src/JS/script.js:147-177 | a successful fetch replaces the panel with one card per statistic; a failed one leaves it unchanged |
| SessionState.EditUnchanged | src/JS/script.js:183-297 | opening a stored mood, pressing edit and submitting the unchanged form updates it with its own name and lists and three colours, and ends with no open mood and edit mode left |
| SessionState.CreateSubmit | src/JS/script.js:246-286 | on a fresh page a submit aborts with the create-mode alert exactly when the filter found the name, otherwise creates the built body, and never opens a mood |

## Left out

- HTTP: every `fetch` is replaced by the value it delivers, given as a parameter, and JSON encoding and decoding are not modelled.
- The store's own behaviour is outside the model, including recording views and the filter query. `Reconciler.MatchingIds` states only what the client relies on from the filter.
- A rejected name-filter request leaves the submit handler before anything changes. It is not modelled, because it is the same as not calling `Submit`.
- DOM rendering, `innerHTML`, focus, scrolling and the relabelling of the form's button and heading are not modelled. The page appears as the session's fields.
- `form.reset()` after a save is not modelled, because the form is an input to `Submit`, not session state.
- `alert` and `confirm`: an alert is the message of `Abort`, and the answer to `confirm` is a boolean parameter.
- Date formatting with `toLocaleString`: a timestamp is opaque, and `LastSeen.Text` takes the formatter as a parameter.
- Asynchrony: the handlers run one at a time. The refreshes that `abrirHumor`, the delete button and the submit start are separate methods that a caller invokes afterwards.
- The Unicode details of `trim`: white space is the fixed set of JavaScript white-space and line-terminator code points in `Text.IsSpace`.
- Values of the wrong JSON type, such as a non-string list item, or `null` where the code expects an array or undefined, are not modelled. An absent field is `None`.
- The initial call of the two refresh functions at page load is not modelled. It is the same as calling `RefreshCatalog` and `RefreshStatistics`.
- SessionState.Session.constructor: the modal is assumed to start hidden, because the markup is not part of this model.
- SessionState.Session.BeginEdit: when a list field is absent, `join` throws after the name input, the colour inputs and the list inputs before the absent one have already been overwritten. The model returns no pre-fill and does not model that partial fill of the form.
- SessionState.Session.OpenMood: a list item that is not a string makes `trim` throw halfway through the rendering. The model assumes string items.
- The success `alert("Salvo com sucesso!")` after a save is not modelled. `Submit` reports a completed save through `saved`.
- The `console.log` and `console.error` calls in the catch blocks are not modelled, because they change no page state.
- Ids are non-empty strings (`Moods.Id`), because the store never hands out an empty `_id`. A falsy id, which `!humorAtualId` would treat as no open mood, therefore does not occur in the model.
