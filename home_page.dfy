/**
 * The home page (`Home`): the carrier list and the selected carrier, the plan
 * document fetched for it, the selected plan and the ordering of its prices.
 * The two effects are methods on a `Home` object whose fields are the page's
 * state; the fetch outcomes are their parameters. The values derived during
 * rendering (available plans, plan detail, displayed tier, ordered prices) are
 * functions.
 */
module HomePage {
  import opened Options
  import opened Text
  import opened Bands
  import opened PlanData
  import opened CarrierListing
  import opened ChatRoute

  /** What the table effect did when it ran: skipped by its guard, stopped on an unknown carrier, or requested `/api/<value>`. */
  datatype TableRequest = Skipped | NotListed | Requested(value: string)

  /** The details column: skeleton while loading, empty without a plan, the thrown render, or the plan with its ordered prices. */
  datatype DetailView<V> =
    | Loading
    | NoPlan
    | RenderError
    | Shown(produto: string, acomodacao: string, prices: Table<V>)

  // ---------------------------------------------------------------------------
  // Values derived while rendering

  /** `tabelaSelecionadaData?.planos || []`. */
  function AvailablePlans<V>(data: Option<PlanDocument<V>>): (r: seq<Plan<V>>)
    ensures data.Some? && data.value.planos.Some? ==> r == data.value.planos.value
    ensures data.None? || data.value.planos.None? ==> r == []
  {
    if data.Some? && data.value.planos.Some? then data.value.planos.value else []
  }

  /** The index of the first plan whose `produto` is `name`. */
  function FindPlan<V>(planos: seq<Plan<V>>, name: string): (r: Option<nat>)
    ensures r.Some? ==> r.value < |planos| && planos[r.value].produto == name
    ensures r.Some? ==> forall k :: 0 <= k < r.value ==> planos[k].produto != name
    ensures r.None? ==> forall k :: 0 <= k < |planos| ==> planos[k].produto != name
  {
    if planos == [] then None
    else if planos[0].produto == name then Some(0)
    else
      match FindPlan(planos[1..], name)
      case None => None
      case Some(k) => Some(k + 1)
  }

  /** `planoSelecionado ? planosDisponiveis.find(p => p.produto === planoSelecionado) : null`. */
  function PlanDetail<V>(planos: seq<Plan<V>>, selected: Option<string>): (r: Option<Plan<V>>)
    ensures !Truthy(selected) ==> r.None?
    ensures Truthy(selected) && r.Some? ==>
      exists i :: 0 <= i < |planos| && r.value == planos[i] && planos[i].produto == selected.value &&
        forall k :: 0 <= k < i ==> planos[k].produto != selected.value
    ensures Truthy(selected) && r.None? ==> forall k :: 0 <= k < |planos| ==> planos[k].produto != selected.value
  {
    if !Truthy(selected) then None
    else
      match FindPlan(planos, selected.value)
      case None => None
      case Some(i) => Some(planos[i])
  }

  /** `nenhum?.[0] || enfermaria?.[0] || apartamento?.[0]`. */
  function PageTier<V>(t: Tiers<V>): Option<Table<V>> {
    OrElse(FirstTable(t.nenhum), OrElse(FirstTable(t.enfermaria), FirstTable(t.apartamento)))
  }

  /** The page shows the first table of the first non-empty tier in the order nenhum, enfermaria, apartamento. */
  lemma PageTierPriority<V>(t: Tiers<V>)
    ensures FirstTable(t.nenhum).Some? ==> PageTier(t) == FirstTable(t.nenhum)
    ensures FirstTable(t.nenhum).None? && FirstTable(t.enfermaria).Some? ==> PageTier(t) == FirstTable(t.enfermaria)
    ensures FirstTable(t.nenhum).None? && FirstTable(t.enfermaria).None? ==> PageTier(t) == FirstTable(t.apartamento)
    ensures PageTier(t).None? <==> FirstTable(t.nenhum).None? && FirstTable(t.enfermaria).None? && FirstTable(t.apartamento).None?
  {
  }

  /**
   * `precosOrdenados` for a plan: `None` when `acomodacao_preco` is absent (the
   * render throws), otherwise the displayed tier's entries sorted by band, or
   * no entries when no tier has a table.
   */
  function OrderedPrices<V(==)>(p: Plan<V>): (r: Option<Table<V>>)
    ensures r.None? <==> p.acomodacaoPreco.None?
    ensures r.Some? && PageTier(p.acomodacaoPreco.value).None? ==> r.value == []
    ensures r.Some? && PageTier(p.acomodacaoPreco.value).Some? ==>
      multiset(r.value) == multiset(PageTier(p.acomodacaoPreco.value).value)
    ensures r.Some? ==> forall i, j :: 0 <= i < j < |r.value| ==> ParseInt(r.value[i].0) <= ParseInt(r.value[j].0)
  {
    match p.acomodacaoPreco
    case None => None
    case Some(tiers) =>
      match PageTier(tiers)
      case None => Some([])
      case Some(table) => Some(SortByBand(table))
  }

  /** Ties keep their order: the entries reading the same integer appear as in the tier. */
  lemma OrderedPricesStable<V>(p: Plan<V>, n: nat)
    requires p.acomodacaoPreco.Some? && PageTier(p.acomodacaoPreco.value).Some?
    ensures WithKey(BandKey, OrderedPrices(p).value, n) == WithKey(BandKey, PageTier(p.acomodacaoPreco.value).value, n)
  {
    SortByBandStable(PageTier(p.acomodacaoPreco.value).value, n);
  }

  /** With distinct bands, the ordered prices have the tier's bands, each once, so `Object.fromEntries` keeps them all. */
  lemma OrderedPricesKeepBands<V>(p: Plan<V>)
    requires p.acomodacaoPreco.Some? && PageTier(p.acomodacaoPreco.value).Some?
    requires DistinctBands(PageTier(p.acomodacaoPreco.value).value)
    ensures DistinctBands(OrderedPrices(p).value)
    ensures BandSet(OrderedPrices(p).value) == BandSet(PageTier(p.acomodacaoPreco.value).value)
  {
    SortKeepsDistinct(PageTier(p.acomodacaoPreco.value).value);
  }

  /** The details column for the page state. */
  function Details<V(==)>(loading: bool, data: Option<PlanDocument<V>>, selected: Option<string>): (r: DetailView<V>)
    ensures loading ==> r == Loading
    ensures !loading && PlanDetail(AvailablePlans(data), selected).None? ==> r == NoPlan
    ensures r.Shown? ==>
      var d := PlanDetail(AvailablePlans(data), selected);
      d.Some? && r.produto == d.value.produto && r.acomodacao == d.value.acomodacao && OrderedPrices(d.value) == Some(r.prices)
    ensures r.RenderError? ==>
      var d := PlanDetail(AvailablePlans(data), selected);
      d.Some? && d.value.acomodacaoPreco.None?
    ensures !loading && PlanDetail(AvailablePlans(data), selected).Some? ==>
      var p := PlanDetail(AvailablePlans(data), selected).value;
      r == if OrderedPrices(p).None? then RenderError else Shown(p.produto, p.acomodacao, OrderedPrices(p).value)
  {
    if loading then Loading
    else
      match PlanDetail(AvailablePlans(data), selected)
      case None => NoPlan
      case Some(p) =>
        match OrderedPrices(p)
        case None => RenderError
        case Some(prices) => Shown(p.produto, p.acomodacao, prices)
  }

  // ---------------------------------------------------------------------------
  // The page state and its effects

  /** The first carrier, in list order, whose `value` is `value`. */
  function FindCarrier(operadoras: seq<Carrier>, value: string): (r: Option<Carrier>)
    ensures r.Some? ==> r.value in operadoras && r.value.value == value
    ensures r.None? ==> forall c :: c in operadoras ==> c.value != value
  {
    if operadoras == [] then None
    else if operadoras[0].value == value then Some(operadoras[0])
    else FindCarrier(operadoras[1..], value)
  }

  class Home<V(==)> {
    var operadoras: seq<Carrier>
    var tabelaSelecionadaData: Option<PlanDocument<V>>
    var isOperadorasLoading: bool
    var isTabelaLoading: bool
    var selecionada: Option<string>
    var planoSelecionado: Option<string>

    /** The initial state: nothing listed, nothing selected, the carrier list loading. */
    constructor()
      ensures operadoras == [] && tabelaSelecionadaData == None
      ensures isOperadorasLoading && !isTabelaLoading
      ensures selecionada == None && planoSelecionado == None
    {
      operadoras := [];
      tabelaSelecionadaData := None;
      isOperadorasLoading := true;
      isTabelaLoading := false;
      selecionada := None;
      planoSelecionado := None;
    }

    /**
     * The first effect, with the outcome of `GET /api/operadoras` (`None` when it
     * failed): the list replaces `operadoras` and its first entry becomes the
     * selection; a failed or empty list leaves the selection as it was.
     */
    method LoadCarriers(outcome: Option<seq<Carrier>>)
      modifies this
      ensures operadoras == (if outcome.Some? then outcome.value else old(operadoras))
      ensures selecionada == (if outcome.Some? && |outcome.value| > 0 then Some(outcome.value[0].value) else old(selecionada))
      ensures !isOperadorasLoading
      ensures tabelaSelecionadaData == old(tabelaSelecionadaData) && isTabelaLoading == old(isTabelaLoading)
      ensures planoSelecionado == old(planoSelecionado)
    {
      isOperadorasLoading := true;
      if outcome.Some? {
        var operadorasData := outcome.value;
        operadoras := operadorasData;
        if |operadorasData| > 0 {
          selecionada := Some(operadorasData[0].value);
        }
      }
      isOperadorasLoading := false;
    }

    /** A click on a carrier button. */
    method SelectCarrier(value: string)
      modifies this
      ensures selecionada == Some(value)
      ensures operadoras == old(operadoras) && tabelaSelecionadaData == old(tabelaSelecionadaData)
      ensures isOperadorasLoading == old(isOperadorasLoading) && isTabelaLoading == old(isTabelaLoading)
      ensures planoSelecionado == old(planoSelecionado)
    {
      selecionada := Some(value);
    }

    /** A click on a plan button. */
    method SelectPlan(produto: string)
      modifies this
      ensures planoSelecionado == Some(produto)
      ensures operadoras == old(operadoras) && tabelaSelecionadaData == old(tabelaSelecionadaData)
      ensures isOperadorasLoading == old(isOperadorasLoading) && isTabelaLoading == old(isTabelaLoading)
      ensures selecionada == old(selecionada)
    {
      planoSelecionado := Some(produto);
    }

    /**
     * The second effect, up to its request: nothing happens without a truthy
     * selection and a non-empty list; otherwise the selected plan is cleared, and
     * a selection missing from the list ends loading without a request.
     */
    method BeginTableFetch() returns (request: TableRequest)
      modifies this
      ensures !Truthy(old(selecionada)) || |old(operadoras)| == 0 ==>
        request == Skipped && planoSelecionado == old(planoSelecionado) && isTabelaLoading == old(isTabelaLoading)
      ensures Truthy(old(selecionada)) && |old(operadoras)| > 0 ==> planoSelecionado == None
      ensures Truthy(old(selecionada)) && |old(operadoras)| > 0 && FindCarrier(old(operadoras), old(selecionada).value).None? ==>
        request == NotListed && !isTabelaLoading
      ensures Truthy(old(selecionada)) && |old(operadoras)| > 0 && FindCarrier(old(operadoras), old(selecionada).value).Some? ==>
        request == Requested(old(selecionada).value) && isTabelaLoading
      ensures operadoras == old(operadoras) && selecionada == old(selecionada)
      ensures tabelaSelecionadaData == old(tabelaSelecionadaData) && isOperadorasLoading == old(isOperadorasLoading)
    {
      if !Truthy(selecionada) || |operadoras| == 0 {
        return Skipped;
      }
      isTabelaLoading := true;
      planoSelecionado := None;
      var operadoraAtual := FindCarrier(operadoras, selecionada.value);
      if operadoraAtual.None? {
        isTabelaLoading := false;
        return NotListed;
      }
      request := Requested(operadoraAtual.value.value);
    }

    /** The second effect, after its request: the fetched document, or `null` when the fetch failed; loading ends. */
    method FinishTableFetch(outcome: Option<PlanDocument<V>>)
      modifies this
      ensures tabelaSelecionadaData == outcome && !isTabelaLoading
      ensures operadoras == old(operadoras) && selecionada == old(selecionada)
      ensures planoSelecionado == old(planoSelecionado) && isOperadorasLoading == old(isOperadorasLoading)
    {
      tabelaSelecionadaData := outcome;
      isTabelaLoading := false;
    }

    /** The details column as the page renders it now. */
    function View(): (r: DetailView<V>)
      reads this
      ensures isOperadorasLoading || isTabelaLoading ==> r == Loading
      ensures !(isOperadorasLoading || isTabelaLoading) && PlanDetail(AvailablePlans(tabelaSelecionadaData), planoSelecionado).None? ==>
        r == NoPlan
      ensures !(isOperadorasLoading || isTabelaLoading) && PlanDetail(AvailablePlans(tabelaSelecionadaData), planoSelecionado).Some? ==>
        var p := PlanDetail(AvailablePlans(tabelaSelecionadaData), planoSelecionado).value;
        r == if OrderedPrices(p).None? then RenderError else Shown(p.produto, p.acomodacao, OrderedPrices(p).value)
    {
      Details(isOperadorasLoading || isTabelaLoading, tabelaSelecionadaData, planoSelecionado)
    }
  }

  /**
   * The page and the chat read a plan's tiers in different orders: with both a
   * `nenhum` and an `enfermaria` table, the page shows the first and the chat
   * quotes the second; with a single non-empty tier both use it.
   */
  lemma TierPrioritiesDiffer<V>(t: Tiers<V>)
    ensures FirstTable(t.nenhum).Some? && FirstTable(t.enfermaria).Some? ==>
      PageTier(t) == FirstTable(t.nenhum) && ChatTier(t) == FirstTable(t.enfermaria)
    ensures FirstTable(t.apartamento).Some? && FirstTable(t.enfermaria).None? && FirstTable(t.nenhum).Some? ==>
      PageTier(t) == FirstTable(t.nenhum) && ChatTier(t) == FirstTable(t.apartamento)
    ensures
      (!(FirstTable(t.nenhum).Some? && FirstTable(t.enfermaria).Some?) &&
       !(FirstTable(t.nenhum).Some? && FirstTable(t.apartamento).Some?) &&
       !(FirstTable(t.enfermaria).Some? && FirstTable(t.apartamento).Some?))
      ==> PageTier(t) == ChatTier(t)
  {
  }

  /** The chat falls back to its no-price notice exactly when the page would list no plans for the same document. */
  lemma NoticeIffNoPlans<V>(doc: Option<PlanDocument<V>>, render: V -> string)
    requires PriceContext(doc, render).Some?
    ensures PriceContext(doc, render).value == NoPriceInfo <==> AvailablePlans(doc) == []
  {
    PriceContextNotice(doc, render);
  }
}
