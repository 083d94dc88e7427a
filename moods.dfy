/** The mood record, the creation/edit form and the request body built from
    it: colour payload, list normalisation and the pre-filling of the form
    when an existing mood is edited. */
module Moods {
  import opened Wrappers
  import opened Lists
  import opened Text

  /** A store identifier (`_id`); the store never hands out an empty one. */
  type Id = s: string | |s| > 0 witness "0"

  /** A mood as the store returns it. Every optional field may be absent from
      the JSON document. Field names are those of the wire format. */
  datatype MoodRecord = MoodRecord(
    id: Id,
    humor: string,
    cores: Option<seq<string>>,
    frases: Option<seq<string>>,
    dicas_estudo: Option<seq<string>>,
    musicas: Option<seq<string>>,
    snacks: Option<seq<string>>,
    emojis: Option<seq<string>>,
    metas_rapidas: Option<seq<string>>,
    descanso: Option<seq<string>>)

  /** The raw values of the form's inputs: the name, three colour pickers and
      one comma-separated text per list field. */
  datatype Form = Form(
    humor: string,
    cor1: string, cor2: string, cor3: string,
    frases: string, dicas: string, musicas: string, snacks: string,
    emojis: string, metas: string, descanso: string)

  /** The JSON body sent to create or update a mood. */
  datatype Body = Body(
    humor: string,
    cores: seq<string>,
    frases: seq<string>,
    dicas_estudo: seq<string>,
    musicas: seq<string>,
    snacks: seq<string>,
    emojis: seq<string>,
    metas_rapidas: seq<string>,
    descanso: seq<string>)

  /** JavaScript truthiness of a string, as used by `filter(Boolean)`. */
  predicate NonEmpty(s: string)
  {
    s != ""
  }

  /** A list element as the store keeps it: non-empty, trimmed, comma-free. */
  predicate IsEntry(s: string)
  {
    s != "" && IsTrimmed(s) && Excludes(s, ',')
  }

  predicate IsEntryList(xs: seq<string>)
  {
    forall i :: 0 <= i < |xs| ==> IsEntry(xs[i])
  }

  /** `pieces.map(s => s.trim())` */
  function TrimAll(pieces: seq<string>): (r: seq<string>)
    ensures |r| == |pieces| && forall i :: 0 <= i < |r| ==> r[i] == Trim(pieces[i])
  {
    if pieces == [] then [] else [Trim(pieces[0])] + TrimAll(pieces[1..])
  }

  lemma {:induction false} TrimAllConcat(a: seq<string>, b: seq<string>)
    ensures TrimAll(a + b) == TrimAll(a) + TrimAll(b)
  {
    if a == [] {
      assert a + b == b;
    } else {
      assert (a + b)[1..] == a[1..] + b;
      TrimAllConcat(a[1..], b);
    }
  }

  lemma TrimAllSingleton(s: string)
    ensures TrimAll([s]) == [Trim(s)]
  {
  }

  /** Trimming comma-free pieces keeps them comma-free. */
  lemma TrimAllExcludes(pieces: seq<string>, c: char)
    requires forall i :: 0 <= i < |pieces| ==> Excludes(pieces[i], c)
    ensures forall i :: 0 <= i < |pieces| ==> Excludes(TrimAll(pieces)[i], c)
  {
    forall i | 0 <= i < |pieces| ensures Excludes(TrimAll(pieces)[i], c) {
      TrimExcludes(pieces[i], c);
    }
  }

  /** Trimming comma-free pieces and keeping the non-empty ones leaves
      entries only. */
  lemma PiecesNormalize(pieces: seq<string>)
    requires forall i :: 0 <= i < |pieces| ==> Excludes(pieces[i], ',')
    ensures IsEntryList(Filter(TrimAll(pieces), NonEmpty))
  {
    var t := TrimAll(pieces);
    TrimAllExcludes(pieces, ',');
    var r := Filter(t, NonEmpty);
    FilterMembers(t, NonEmpty);
    forall i | 0 <= i < |r| ensures IsEntry(r[i]) {
      var j :| 0 <= j < |t| && t[j] == r[i];
    }
  }

  /** `raw.split(",").map(s => s.trim()).filter(Boolean)`: the comma-separated
      pieces of `raw`, each trimmed, empty ones dropped. */
  function NormalizeList(raw: string): (r: seq<string>)
    ensures IsEntryList(r)
  {
    PiecesNormalize(Split(raw, ','));
    Filter(TrimAll(Split(raw, ',')), NonEmpty)
  }

  lemma NormalizeListUnfold(raw: string, pieces: seq<string>)
    requires Split(raw, ',') == pieces
    ensures NormalizeList(raw) == Filter(TrimAll(pieces), NonEmpty)
  {
  }

  /** A comma separates the normalised lists of its two sides: order and
      duplicates are preserved. */
  lemma NormalizeListConcat(a: string, b: string)
    ensures NormalizeList(a + [','] + b) == NormalizeList(a) + NormalizeList(b)
  {
    var pa, pb := Split(a, ','), Split(b, ',');
    SplitConcat(a, b, ',');
    NormalizeListUnfold(a + [','] + b, pa + pb);
    NormalizeListUnfold(a, pa);
    NormalizeListUnfold(b, pb);
    TrimAllConcat(pa, pb);
    FilterConcat(TrimAll(pa), TrimAll(pb), NonEmpty);
  }

  /** A comma-free input is one piece: its trim, or nothing when it is blank. */
  lemma NormalizeListPiece(s: string)
    requires Excludes(s, ',')
    ensures NormalizeList(s) == if Trim(s) == "" then [] else [Trim(s)]
  {
    SplitWithoutSeparator(s, ',');
    NormalizeListUnfold(s, [s]);
    TrimAllSingleton(s);
    FilterSingleton(Trim(s), NonEmpty);
  }

  /** Trimming the pieces is blind to a blank prefixed to the first piece. */
  lemma TrimAllLeadingSpace(first: string, rest: seq<string>)
    ensures TrimAll([" " + first] + rest) == TrimAll([first] + rest)
  {
    TrimLeadingSpace(' ', first);
    assert [' '] + first == " " + first;
    TrimAllConcat([" " + first], rest);
    TrimAllConcat([first], rest);
    TrimAllSingleton(" " + first);
    TrimAllSingleton(first);
  }

  /** A leading blank does not change the normalised list. */
  lemma NormalizeListLeadingSpace(s: string)
    ensures NormalizeList(" " + s) == NormalizeList(s)
  {
    var rest := Split(s, ',');
    SplitCons(' ', s, ',');
    assert [' '] + s == " " + s;
    NormalizeListUnfold(" " + s, [" " + rest[0]] + rest[1..]);
    assert [rest[0]] + rest[1..] == rest;
    NormalizeListUnfold(s, [rest[0]] + rest[1..]);
    TrimAllLeadingSpace(rest[0], rest[1..]);
  }

  /** A comma-free piece with no blank at either end normalises to itself. */
  lemma NormalizeListTrimmedPiece(s: string)
    requires IsEntry(s)
    ensures NormalizeList(s) == [s]
  {
    NormalizeListPiece(s);
    TrimOfTrimmed(s);
  }

  /** A blank comma-free piece normalises to nothing. */
  lemma NormalizeListBlankPiece(s: string)
    requires Excludes(s, ',') && forall k :: 0 <= k < |s| ==> IsSpace(s[k])
    ensures NormalizeList(s) == []
  {
    NormalizeListPiece(s);
    TrimEmptyIffBlank(s);
  }

  /** A blank piece between two commas contributes nothing: the pieces on
      either side are normalised as if it were not there. */
  lemma NormalizeListDropsBlankPiece(a: string, blank: string, b: string)
    requires Excludes(blank, ',') && forall k :: 0 <= k < |blank| ==> IsSpace(blank[k])
    ensures NormalizeList(a + [','] + blank + [','] + b) == NormalizeList(a) + NormalizeList(b)
  {
    var rest := blank + [','] + b;
    TwoCommasRegroup(a, blank, b);
    NormalizeListConcat(a, rest);
    NormalizeListBlankPiece(blank);
    NormalizeListConcat(blank, b);
    assert NormalizeList(rest) == NormalizeList(b);
  }

  /** One step of the round trip: an entry followed by `", "`. */
  lemma NormalizeListEntryThen(x: string, tail: string)
    requires IsEntry(x)
    ensures NormalizeList(x + ", " + tail) == [x] + NormalizeList(tail)
  {
    var u := " " + tail;
    CommaSpaceRegroup(x, tail);
    NormalizeListConcat(x, u);
    NormalizeListTrimmedPiece(x);
    NormalizeListLeadingSpace(tail);
  }

  lemma CommaSpaceRegroup(x: string, tail: string)
    ensures x + ", " + tail == x + [','] + (" " + tail)
  {
  }

  lemma TwoCommasRegroup(a: string, blank: string, b: string)
    ensures a + [','] + blank + [','] + b == a + [','] + (blank + [','] + b)
  {
  }

  /** The empty list is edited as the empty string, which normalises back to
      the empty list. */
  lemma NormalizeListEmpty()
    ensures NormalizeList("") == []
  {
    NormalizeListPiece("");
  }

  /** Joining at least two elements and normalising peels off the first. */
  lemma NormalizeJoinCons(xs: seq<string>)
    requires |xs| >= 2 && IsEntry(xs[0])
    ensures NormalizeList(Join(xs, ", ")) == [xs[0]] + NormalizeList(Join(xs[1..], ", "))
  {
    NormalizeListEntryThen(xs[0], Join(xs[1..], ", "));
  }

  lemma NormalizeJoinSingle(x: string)
    requires IsEntry(x)
    ensures NormalizeList(Join([x], ", ")) == [x]
  {
    NormalizeListPiece(x);
    TrimOfTrimmed(x);
  }

  /** Round trip of the edit form: a stored list joined with `", "` and
      normalised on submit comes back unchanged. */
  lemma {:induction false} NormalizeJoin(xs: seq<string>)
    requires IsEntryList(xs)
    ensures NormalizeList(Join(xs, ", ")) == xs
  {
    if |xs| == 0 {
      NormalizeListEmpty();
    } else if |xs| == 1 {
      NormalizeJoinSingle(xs[0]);
      assert [xs[0]] == xs;
    } else {
      NormalizeJoinCons(xs);
      NormalizeJoin(xs[1..]);
      assert [xs[0]] + xs[1..] == xs;
    }
  }

  /** The colour the edit form pre-fills, and the catalog card's background:
      `cores?.[k] || fallback` — the k-th stored colour when it is present
      and non-empty, the fallback otherwise. */
  function ColourOr(cores: Option<seq<string>>, k: nat, fallback: string): (r: string)
    ensures r == fallback || (cores.Some? && k < |cores.value| && r == cores.value[k])
    ensures r != "" <==> (cores.Some? && k < |cores.value| && cores.value[k] != "") || fallback != ""
    ensures cores.Some? && k < |cores.value| && cores.value[k] != "" ==> r == cores.value[k]
    ensures !(cores.Some? && k < |cores.value| && cores.value[k] != "") ==> r == fallback
  {
    if cores.Some? && k < |cores.value| && cores.value[k] != "" then cores.value[k] else fallback
  }

  /** `[cor1, cor2, cor3].filter(Boolean)` */
  function ColourPayload(c1: string, c2: string, c3: string): (r: seq<string>)
    ensures |r| <= 3
    ensures forall i :: 0 <= i < |r| ==> r[i] != "" && r[i] in [c1, c2, c3]
    ensures c1 != "" && c2 != "" && c3 != "" ==> r == [c1, c2, c3]
    ensures r == (if c1 != "" then [c1] else []) + (if c2 != "" then [c2] else [])
                 + (if c3 != "" then [c3] else [])
  {
    FilterMembers([c1, c2, c3], NonEmpty);
    ColourPayloadPieces(c1, c2, c3);
    if c1 != "" && c2 != "" && c3 != "" then
      FilterKeepsAll([c1, c2, c3], NonEmpty);
      Filter([c1, c2, c3], NonEmpty)
    else
      Filter([c1, c2, c3], NonEmpty)
  }

  /** The three inputs are filtered one by one, in order. */
  lemma ColourPayloadPieces(c1: string, c2: string, c3: string)
    ensures Filter([c1, c2, c3], NonEmpty)
            == (if c1 != "" then [c1] else []) + (if c2 != "" then [c2] else [])
               + (if c3 != "" then [c3] else [])
  {
    assert [c1, c2, c3] == [c1] + ([c2] + [c3]);
    FilterConcat([c1], [c2] + [c3], NonEmpty);
    FilterConcat([c2], [c3], NonEmpty);
    FilterSingleton(c1, NonEmpty);
    FilterSingleton(c2, NonEmpty);
    FilterSingleton(c3, NonEmpty);
  }

  /** The body the submit handler builds from the form. */
  function BuildBody(f: Form): (b: Body)
    ensures IsTrimmed(b.humor)
    ensures |b.cores| <= 3 && forall i :: 0 <= i < |b.cores| ==> b.cores[i] != ""
    ensures IsEntryList(b.frases) && IsEntryList(b.dicas_estudo) && IsEntryList(b.musicas)
    ensures IsEntryList(b.snacks) && IsEntryList(b.emojis)
    ensures IsEntryList(b.metas_rapidas) && IsEntryList(b.descanso)
  {
    Body(Trim(f.humor), ColourPayload(f.cor1, f.cor2, f.cor3),
         NormalizeList(f.frases), NormalizeList(f.dicas), NormalizeList(f.musicas),
         NormalizeList(f.snacks), NormalizeList(f.emojis), NormalizeList(f.metas),
         NormalizeList(f.descanso))
  }

  /** What the colour pickers show for an unset colour of an edited mood. */
  const EDIT_DEFAULT_COLOUR := "#000000"

  /** The three colours the edit form is pre-filled with. */
  function EditColours(cores: Option<seq<string>>): (r: seq<string>)
    ensures |r| == 3 && r[0] != "" && r[1] != "" && r[2] != ""
    ensures cores.Some? && |cores.value| > 0 && cores.value[0] != "" ==> r[0] == cores.value[0]
    ensures cores.Some? && |cores.value| > 1 && cores.value[1] != "" ==> r[1] == cores.value[1]
    ensures cores.Some? && |cores.value| > 2 && cores.value[2] != "" ==> r[2] == cores.value[2]
  {
    [ColourOr(cores, 0, EDIT_DEFAULT_COLOUR), ColourOr(cores, 1, EDIT_DEFAULT_COLOUR),
     ColourOr(cores, 2, EDIT_DEFAULT_COLOUR)]
  }

  /** The form pre-filled from a stored mood; None when a list field is
      absent, where `join` would throw and the handler stop. */
  function Prefill(m: MoodRecord): (r: Option<Form>)
    ensures r.Some? <==> m.frases.Some? && m.dicas_estudo.Some? && m.musicas.Some?
                         && m.snacks.Some? && m.emojis.Some? && m.metas_rapidas.Some?
                         && m.descanso.Some?
    ensures r.Some? ==> r.value.humor == m.humor
  {
    if m.frases.None? || m.dicas_estudo.None? || m.musicas.None? || m.snacks.None?
       || m.emojis.None? || m.metas_rapidas.None? || m.descanso.None?
    then None
    else
      var c := EditColours(m.cores);
      Some(Form(m.humor, c[0], c[1], c[2],
                Join(m.frases.value, ", "), Join(m.dicas_estudo.value, ", "),
                Join(m.musicas.value, ", "), Join(m.snacks.value, ", "),
                Join(m.emojis.value, ", "), Join(m.metas_rapidas.value, ", "),
                Join(m.descanso.value, ", ")))
  }

  /** Submitting an unchanged edit form always sends exactly three colours,
      the pre-filled ones. */
  lemma UnchangedEditSendsThreeColours(cores: Option<seq<string>>)
    ensures var c := EditColours(cores);
            ColourPayload(c[0], c[1], c[2]) == c && |c| == 3
  {
  }

  /** Stored colours come back first, followed by `#000000` up to three; so
      the colours survive an unchanged edit exactly when there were three. */
  lemma EditColoursPadStored(cs: seq<string>)
    requires |cs| <= 3 && forall i :: 0 <= i < |cs| ==> cs[i] != ""
    ensures var c := EditColours(Some(cs));
            c[..|cs|] == cs && (forall k :: |cs| <= k < 3 ==> c[k] == EDIT_DEFAULT_COLOUR)
    ensures EditColours(Some(cs)) == cs <==> |cs| == 3
  {
    var c := EditColours(Some(cs));
    assert c[..|cs|] == cs;
  }

  /** A mood as the store keeps it after a submit: trimmed name and every
      list field present and normalised. */
  predicate IsStored(m: MoodRecord)
  {
    IsTrimmed(m.humor)
    && m.frases.Some? && IsEntryList(m.frases.value)
    && m.dicas_estudo.Some? && IsEntryList(m.dicas_estudo.value)
    && m.musicas.Some? && IsEntryList(m.musicas.value)
    && m.snacks.Some? && IsEntryList(m.snacks.value)
    && m.emojis.Some? && IsEntryList(m.emojis.value)
    && m.metas_rapidas.Some? && IsEntryList(m.metas_rapidas.value)
    && m.descanso.Some? && IsEntryList(m.descanso.value)
  }

  /** Edit round trip: pre-filling the form from a stored mood and building
      the body from the unchanged form gives back the mood's name and lists,
      with the colours padded to three. */
  lemma EditRoundTrip(m: MoodRecord)
    requires IsStored(m)
    ensures Prefill(m).Some?
    ensures BuildBody(Prefill(m).value)
            == Body(m.humor, EditColours(m.cores), m.frases.value, m.dicas_estudo.value,
                    m.musicas.value, m.snacks.value, m.emojis.value,
                    m.metas_rapidas.value, m.descanso.value)
  {
    var c := EditColours(m.cores);
    var f := Form(m.humor, c[0], c[1], c[2],
                  Join(m.frases.value, ", "), Join(m.dicas_estudo.value, ", "),
                  Join(m.musicas.value, ", "), Join(m.snacks.value, ", "),
                  Join(m.emojis.value, ", "), Join(m.metas_rapidas.value, ", "),
                  Join(m.descanso.value, ", "));
    assert Prefill(m) == Some(f);
    TrimOfTrimmed(m.humor);
    UnchangedEditSendsThreeColours(m.cores);
    NormalizeJoin(m.frases.value);
    NormalizeJoin(m.dicas_estudo.value);
    NormalizeJoin(m.musicas.value);
    NormalizeJoin(m.snacks.value);
    NormalizeJoin(m.emojis.value);
    NormalizeJoin(m.metas_rapidas.value);
    NormalizeJoin(m.descanso.value);
  }
}
