/** What the page renders from store data: the catalog cards, the detail
    lists and colour swatches of an opened mood, and the statistics cards. */
module Display {
  import opened Wrappers
  import opened Lists
  import opened Text
  import opened Moods

  /** An absent array is read as the empty one (`arr = []`, `cores || []`). */
  function OrEmpty(xs: Option<seq<string>>): seq<string>
  {
    if xs.Some? then xs.value else []
  }

  /** The background of a catalog card when the mood has no first colour. */
  const CARD_DEFAULT_COLOUR := "#6c63ff"

  /** `h.cores?.[0] || "#6c63ff"` */
  function CardBackground(cores: Option<seq<string>>): (r: string)
    ensures r != ""
    ensures r != CARD_DEFAULT_COLOUR ==> cores.Some? && |cores.value| > 0 && r == cores.value[0]
    ensures cores.Some? && |cores.value| > 0 && cores.value[0] != "" ==> r == cores.value[0]
    ensures (cores.None? || |cores.value| == 0 || cores.value[0] == "") ==> r == CARD_DEFAULT_COLOUR
  {
    ColourOr(cores, 0, CARD_DEFAULT_COLOUR)
  }

  /** A catalog card: the mood's id (for the click handler), its name as the
      label and its background. */
  datatype Card = Card(id: Id, name: string, background: string)

  /** The card `criarCard` appends for one mood. */
  function CardFor(m: MoodRecord): (c: Card)
    ensures c.id == m.id && c.name == m.humor && c.background != ""
    ensures m.cores.Some? && |m.cores.value| > 0 && m.cores.value[0] != "" ==> c.background == m.cores.value[0]
  {
    Card(m.id, m.humor, CardBackground(m.cores))
  }

  /** The grid `carregarHumores` builds: one card per mood, in store order. */
  method CatalogCards(humores: seq<MoodRecord>) returns (cards: seq<Card>)
    ensures |cards| == |humores|
    ensures forall i :: 0 <= i < |humores| ==> cards[i] == CardFor(humores[i])
  {
    cards := [];
    var i := 0;
    while i < |humores|
      invariant 0 <= i <= |humores|
      invariant |cards| == i
      invariant forall k :: 0 <= k < i ==> cards[k] == CardFor(humores[k])
    {
      cards := cards + [CardFor(humores[i])];
      i := i + 1;
    }
  }

  /** `!item.trim()` is false. */
  predicate NotBlank(s: string)
  {
    Trim(s) != ""
  }

  /** The items `preencherLista` shows for a list field. */
  function ShownItems(arr: Option<seq<string>>): (r: seq<string>)
    ensures |r| <= |OrEmpty(arr)|
    ensures arr.None? ==> r == []
  {
    Filter(OrEmpty(arr), NotBlank)
  }

  /** A detail list shows exactly the items that are not blank, as stored
      (not trimmed), in stored order. */
  lemma ShownItemsExactly(arr: Option<seq<string>>)
    ensures forall i :: 0 <= i < |ShownItems(arr)| ==> ShownItems(arr)[i] in OrEmpty(arr) && Trim(ShownItems(arr)[i]) != ""
    ensures forall i :: 0 <= i < |OrEmpty(arr)| && Trim(OrEmpty(arr)[i]) != "" ==> OrEmpty(arr)[i] in ShownItems(arr)
    ensures arr.None? ==> ShownItems(arr) == []
  {
    FilterMembers(OrEmpty(arr), NotBlank);
  }

  /** Order and duplicates: the items shown for two stretches of a list are
      those of the first followed by those of the second. */
  lemma ShownItemsConcat(a: seq<string>, b: seq<string>)
    ensures ShownItems(Some(a + b)) == ShownItems(Some(a)) + ShownItems(Some(b))
  {
    FilterConcat(a, b, NotBlank);
  }

  /** A list as a submit stores it is shown in full. */
  lemma ShownItemsOfStoredList(xs: seq<string>)
    requires IsEntryList(xs)
    ensures ShownItems(Some(xs)) == xs
  {
    forall i | 0 <= i < |xs| ensures NotBlank(xs[i]) {
      TrimOfTrimmed(xs[i]);
    }
    FilterKeepsAll(xs, NotBlank);
  }

  /** The `forEach` of `preencherLista`: appends an item for every element
      whose trim is not empty. */
  method ListItems(arr: Option<seq<string>>) returns (items: seq<string>)
    ensures items == ShownItems(arr)
  {
    var xs := OrEmpty(arr);
    items := [];
    var i := 0;
    while i < |xs|
      invariant 0 <= i <= |xs|
      invariant items == Filter(xs[..i], NotBlank)
    {
      if NotBlank(xs[i]) {
        items := items + [xs[i]];
      }
      FilterPrefixStep(xs, i, NotBlank);
      i := i + 1;
    }
    assert xs[..i] == xs;
  }

  /** The colour boxes of the detail view: one per stored colour, empty
      values included. */
  method Swatches(cores: Option<seq<string>>) returns (boxes: seq<string>)
    ensures boxes == OrEmpty(cores)
  {
    var cs := OrEmpty(cores);
    boxes := [];
    var i := 0;
    while i < |cs|
      invariant 0 <= i <= |cs|
      invariant boxes == cs[..i]
    {
      boxes := boxes + [cs[i]];
      i := i + 1;
    }
    assert cs[..i] == cs;
  }

  /** The seven detail lists of a mood, in the page's order. */
  function DetailLists(m: MoodRecord): (r: seq<seq<string>>)
    ensures |r| == 7
  {
    [ShownItems(m.frases), ShownItems(m.dicas_estudo), ShownItems(m.musicas),
     ShownItems(m.snacks), ShownItems(m.emojis), ShownItems(m.metas_rapidas),
     ShownItems(m.descanso)]
  }

  /** A mood as a submit stores it shows every list in full. */
  lemma StoredMoodShownInFull(m: MoodRecord)
    requires IsStored(m)
    ensures DetailLists(m) == [m.frases.value, m.dicas_estudo.value, m.musicas.value,
                               m.snacks.value, m.emojis.value, m.metas_rapidas.value,
                               m.descanso.value]
  {
    ShownItemsOfStoredList(m.frases.value);
    ShownItemsOfStoredList(m.dicas_estudo.value);
    ShownItemsOfStoredList(m.musicas.value);
    ShownItemsOfStoredList(m.snacks.value);
    ShownItemsOfStoredList(m.emojis.value);
    ShownItemsOfStoredList(m.metas_rapidas.value);
    ShownItemsOfStoredList(m.descanso.value);
  }

  /** The seven `preencherLista` calls of `abrirHumor`. */
  method DetailItems(m: MoodRecord) returns (lists: seq<seq<string>>)
    ensures lists == DetailLists(m)
  {
    var frases := ListItems(m.frases);
    var dicas := ListItems(m.dicas_estudo);
    var musicas := ListItems(m.musicas);
    var snacks := ListItems(m.snacks);
    var emojis := ListItems(m.emojis);
    var metas := ListItems(m.metas_rapidas);
    var descanso := ListItems(m.descanso);
    lists := [frases, dicas, musicas, snacks, emojis, metas, descanso];
  }

  /** An access time as the store records it; its formatting is not modelled. */
  type Timestamp = string

  /** The "Última consulta" of a statistics card: `Never` is rendered as the
      text "Nunca". */
  datatype LastSeen = Never | At(stamp: Timestamp)
  {
    function Text(format: Timestamp -> string): (r: string)
      ensures Never? ==> r == "Nunca"
      ensures At? ==> r == format(stamp)
    {
      match this
      case Never => "Nunca"
      case At(t) => format(t)
    }
  }

  /** A usage statistic as the store returns it. */
  datatype UsageStat = UsageStat(humor: string, uso: int, ultimaConsultas: Option<seq<Timestamp>>)

  /** The `ultima` selection: the last recorded access, or Never when the
      list is absent or empty. */
  function LastAccess(ultimaConsultas: Option<seq<Timestamp>>): (r: LastSeen)
    ensures r.Never? <==> ultimaConsultas.None? || |ultimaConsultas.value| == 0
    ensures r.At? ==> r.stamp == ultimaConsultas.value[|ultimaConsultas.value| - 1]
  {
    if ultimaConsultas.Some? && |ultimaConsultas.value| > 0 then
      At(ultimaConsultas.value[|ultimaConsultas.value| - 1])
    else Never
  }

  /** A statistics card: name, use count and last access. */
  datatype StatCard = StatCard(humor: string, uso: int, ultima: LastSeen)

  /** The `forEach` of `carregarEstatisticas`: one card per statistic, in
      store order. */
  method StatCards(stats: seq<UsageStat>) returns (cards: seq<StatCard>)
    ensures |cards| == |stats|
    ensures forall i :: 0 <= i < |stats| ==>
              cards[i] == StatCard(stats[i].humor, stats[i].uso, LastAccess(stats[i].ultimaConsultas))
  {
    cards := [];
    var i := 0;
    while i < |stats|
      invariant 0 <= i <= |stats|
      invariant |cards| == i
      invariant forall k :: 0 <= k < i ==>
                  cards[k] == StatCard(stats[k].humor, stats[k].uso, LastAccess(stats[k].ultimaConsultas))
    {
      var s := stats[i];
      var ultima := Never;
      if s.ultimaConsultas.Some? && |s.ultimaConsultas.value| > 0 {
        ultima := At(s.ultimaConsultas.value[|s.ultimaConsultas.value| - 1]);
      }
      cards := cards + [StatCard(s.humor, s.uso, ultima)];
      i := i + 1;
    }
  }
}
