/**
 * The content catalog of the universe page: the six built-in satellites that
 * are shown when the backend is unavailable, and the enrichment that turns the
 * records of the satellites endpoint into displayable items by looking up an
 * icon and a colour gradient by id (src/components/Universe.jsx).
 */
module Catalog {
  import opened Nullable

  /** The lucide icons the page draws, as opaque tokens. */
  datatype Icon = Activity | Brain | Sparkles | Scale | Lightbulb | CheckCircle2

  /** A satellite as the satellites endpoint returns it, before enrichment. */
  datatype Record = Record(
    id: int,
    title: string,
    question: string,
    chips: seq<string>,
    detail: string,
    activity: string)

  /** A satellite as the page shows it: the record plus an icon and a gradient. */
  datatype Satellite = Satellite(
    id: int,
    title: string,
    question: string,
    icon: Icon,
    color: string,
    chips: seq<string>,
    detail: string,
    activity: string)

  /** Outcome of `GET /api/satellites`: a body whose `items` may be absent, a
      non-OK status, or a thrown error (network failure or malformed JSON). */
  datatype CatalogReply = CatalogOk(items: Option<seq<Record>>) | CatalogNotOk | CatalogThrew

  const DefaultIcon: Icon := Activity
  const DefaultColor: string := "from-blue-400 to-cyan-300"

  /** The built-in catalog, used until (and unless) the backend supplies one. */
  const FallbackSatellites: seq<Satellite> := [
    Satellite(
      1,
      "1. El Poder de Decidir",
      "¿Somos realmente dueños de nuestras elecciones o actuamos en piloto automático más de lo que creemos?",
      Activity,
      "from-blue-400 to-cyan-300",
      ["Autonomía", "Hábitos", "Atención"],
      "Explora cómo la intención consciente compite con los hábitos y las señales del entorno. Pequeñas pausas de conciencia pueden cambiar trayectorias completas.",
      "Describe una micro-decisión de hoy que vas a tomar con plena atención."),
    Satellite(
      2,
      "2. Cerebro y Emoción",
      "¿Cómo dialogan razón y emoción al decidir, y quién tiene la última palabra?",
      Brain,
      "from-fuchsia-400 to-violet-300",
      ["Sistema 1 & 2", "Interocepción", "Regulación"],
      "La emoción filtra la información antes de la lógica. No hay decisiones \"puras\"; aprende a regular para decidir mejor.",
      "Nombra una emoción reciente que influyó tu última decisión importante."),
    Satellite(
      3,
      "3. Decisiones en Contexto",
      "¿Cuánto pesa el entorno (social, cultural, digital) en lo que elegimos?",
      Sparkles,
      "from-purple-400 to-indigo-300",
      ["Normas", "Arquitectura de elección", "Influencias"],
      "Diseña tu entorno para facilitar buenas opciones: lo cercano, visible y fácil gana.",
      "Anota un cambio de entorno que harías para facilitar una mejor elección."),
    Satellite(
      4,
      "4. Integridad y Dilema",
      "¿Qué sacrificamos (y por qué) cuando las opciones chocan con nuestros valores?",
      Scale,
      "from-rose-400 to-orange-300",
      ["Valores", "Costes ocultos", "Coraje"],
      "Clarificar valores reduce fricción en dilemas. Anticipa tus líneas rojas antes del momento crítico.",
      "Escribe un valor no negociable y una acción que lo honre esta semana."),
    Satellite(
      5,
      "5. Sesgos y Atajos",
      "¿Qué sesgos invisibles guían nuestros atajos mentales al decidir?",
      Lightbulb,
      "from-amber-400 to-yellow-300",
      ["Anclaje", "Confirmación", "Disponibilidad"],
      "Detectar sesgos no los elimina, pero reduce su poder cuando introduces fricción consciente.",
      "Señala un sesgo que pudiste haber tenido en una elección reciente."),
    Satellite(
      6,
      "6. Impacto y Futuro",
      "¿Cómo cambia el futuro cuando hoy decidimos distinto?",
      CheckCircle2,
      "from-emerald-400 to-teal-300",
      ["Efecto compuesto", "Trayectorias", "Aprendizaje"],
      "Las micro-decisiones diarias acumulan efectos exponenciales. Define tu dirección, no solo el siguiente paso.",
      "Esboza una micro-acción diaria que, repetida, cambiaría tu año.")
  ]

  /** The fallback catalog has six items, with ids 1 to 6 in that order. */
  lemma FallbackIdsInOrder()
    ensures |FallbackSatellites| == 6
    ensures forall i :: 0 <= i < 6 ==> FallbackSatellites[i].id == i + 1
    ensures forall i :: 0 <= i < 6 ==> FallbackSatellites[i].color != ""
  {
  }

  /** The icon table of the catalog loader: ids 1 to 6 get the icon of the
      fallback item with that id, every other id the generic icon. */
  function IconFor(id: int): (icon: Icon)
    ensures 1 <= id <= 6 ==> icon == FallbackSatellites[id - 1].icon
    ensures !(1 <= id <= 6) ==> icon == DefaultIcon
  {
    if id == 1 then Activity
    else if id == 2 then Brain
    else if id == 3 then Sparkles
    else if id == 4 then Scale
    else if id == 5 then Lightbulb
    else if id == 6 then CheckCircle2
    else DefaultIcon
  }

  /** `Array.prototype.find` by id: the first satellite of `s` with that id. */
  function FindById(s: seq<Satellite>, id: int): (r: Option<Satellite>)
    ensures r.None? <==> forall k :: 0 <= k < |s| ==> s[k].id != id
    ensures r.Some? ==> exists k :: 0 <= k < |s| && s[k] == r.value && r.value.id == id &&
                                    forall j :: 0 <= j < k ==> s[j].id != id
  {
    if s == [] then None
    else if s[0].id == id then Some(s[0])
    else
      var rest := FindById(s[1..], id);
      if rest.Some? then
        ghost var k :| 0 <= k < |s[1..]| && s[1..][k] == rest.value && rest.value.id == id &&
                       forall j :: 0 <= j < k ==> s[1..][j].id != id;
        assert s[k + 1] == rest.value;
        rest
      else
        rest
  }

  /** The colour lookup of the catalog loader: the gradient of the fallback
      item with the same id, or the default gradient when there is none (or
      when it is empty, as `|| default` treats an empty string). */
  function ColorFor(id: int): (color: string)
    ensures 1 <= id <= 6 ==> color == FallbackSatellites[id - 1].color
    ensures !(1 <= id <= 6) ==> color == DefaultColor
  {
    FallbackIdsInOrder();
    match FindById(FallbackSatellites, id)
    case Some(f) => if f.color != "" then f.color else DefaultColor
    case None => DefaultColor
  }

  /** `{ ...it, icon, color }`: one record made displayable. */
  function EnrichOne(r: Record): (s: Satellite)
    ensures Strip(s) == r
    ensures s.icon == IconFor(r.id) && s.color == ColorFor(r.id)
  {
    Satellite(r.id, r.title, r.question, IconFor(r.id), ColorFor(r.id), r.chips, r.detail, r.activity)
  }

  /** The server record an item was made from (the inverse of enrichment). */
  function Strip(s: Satellite): Record {
    Record(s.id, s.title, s.question, s.chips, s.detail, s.activity)
  }

  /** `(data.items || []).map(...)`: enriches every record, keeping the
      server's order and length; each item carries its record unchanged and
      gets the icon and colour that its id selects. */
  function Enrich(records: seq<Record>): (r: seq<Satellite>)
    ensures |r| == |records|
    ensures forall i :: 0 <= i < |records| ==>
              Strip(r[i]) == records[i] && r[i].icon == IconFor(records[i].id) && r[i].color == ColorFor(records[i].id)
  {
    if records == [] then [] else [EnrichOne(records[0])] + Enrich(records[1..])
  }

  /** The ids of a catalog, in order. */
  function Ids(s: seq<Satellite>): (ids: seq<int>)
    ensures |ids| == |s| && forall i :: 0 <= i < |s| ==> ids[i] == s[i].id
  {
    seq(|s|, i requires 0 <= i < |s| => s[i].id)
  }

  /** `data.items || []`. */
  function ItemsOrEmpty(items: Option<seq<Record>>): (list: seq<Record>)
    ensures items.Some? ==> list == items.value
    ensures list == [] <==> items.None? || items.value == []
  {
    match items
    case Some(list) => list
    case None => []
  }

  /** The catalog after the satellites fetch: the enriched list when the
      response is OK and the list is non-empty, the current catalog otherwise.
      A non-empty catalog never becomes empty. */
  function NextItems(current: seq<Satellite>, reply: CatalogReply): (r: seq<Satellite>)
    ensures !reply.CatalogOk? ==> r == current
    ensures reply.CatalogOk? ==>
              var enriched := Enrich(ItemsOrEmpty(reply.items));
              if |ItemsOrEmpty(reply.items)| > 0 then r == enriched else r == current
    ensures |current| > 0 ==> |r| > 0
  {
    match reply
    case CatalogOk(items) =>
      var enriched := Enrich(ItemsOrEmpty(items));
      if |enriched| > 0 then enriched else current
    case CatalogNotOk => current
    case CatalogThrew => current
  }

  /** Stripping the icon and colour after enrichment gives back the server's
      records, in order. */
  lemma {:induction false} StripEnrich(records: seq<Record>)
    ensures seq(|records|, i requires 0 <= i < |records| => Strip(Enrich(records)[i])) == records
  {
  }

  /** A server that returns the records of the fallback items produces exactly
      the fallback catalog: the icon table and the colour lookup agree with the
      icons and colours of the built-in items. */
  lemma EnrichFallbackRecords()
    ensures Enrich(seq(6, i requires 0 <= i < 6 => Strip(FallbackSatellites[i]))) == FallbackSatellites
  {
    FallbackIdsInOrder();
    var records := seq(6, i requires 0 <= i < 6 => Strip(FallbackSatellites[i]));
    var r := Enrich(records);
    forall i | 0 <= i < 6
      ensures r[i] == FallbackSatellites[i]
    {
      assert records[i].id == i + 1;
    }
  }
}
