/**
 * The shape of a carrier's plan document, as the chat route and the home page
 * read it: `planos[]`, each with `produto`, `acomodacao` and `acomodacao_preco`
 * holding up to three accommodation tiers, each an array of price tables.
 */
module PlanData {
  import opened Options
  import opened Bands

  /** A price table: `[band, value]` entries in the object's key order. */
  type Table<V> = seq<Entry<V>>

  /** `acomodacao_preco`: each tier may be absent; present tiers are arrays of tables. */
  datatype Tiers<V> = Tiers(
    enfermaria: Option<seq<Table<V>>>,
    apartamento: Option<seq<Table<V>>>,
    nenhum: Option<seq<Table<V>>>)

  /** One plan; `acomodacaoPreco` is `None` when the document omits `acomodacao_preco`. */
  datatype Plan<V> = Plan(produto: string, acomodacao: string, acomodacaoPreco: Option<Tiers<V>>)

  /** A plan document; `planos` is `None` when the field is absent or null. */
  datatype PlanDocument<V> = PlanDocument(planos: Option<seq<Plan<V>>>)

  /** `tier?.[0]`: the first table of a tier, if the tier is present and non-empty. */
  function FirstTable<V>(tier: Option<seq<Table<V>>>): (r: Option<Table<V>>)
    ensures r.Some? <==> tier.Some? && |tier.value| > 0
    ensures r.Some? ==> r.value == tier.value[0]
  {
    if tier.Some? && |tier.value| > 0 then Some(tier.value[0]) else None
  }

  /** `a || b` over optional tables (a present table object is always truthy). */
  function OrElse<V>(a: Option<Table<V>>, b: Option<Table<V>>): Option<Table<V>> {
    if a.Some? then a else b
  }
}
