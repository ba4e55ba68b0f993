/**
 * The chat route (`POST /api/chat`): validate the message, identify the carrier
 * from the model's first reply (with a first-word fallback on the `"Nenhuma"`
 * sentinel), ask for clarification when none is found, otherwise linearise the
 * carrier's plan document into a price context, obtain the second reply and log
 * the exchange. The document database, the language model, the value formatting
 * and the clock are inputs (`Services`); the handler returns, besides its
 * response, the sequence of service calls it made.
 */
module ChatRoute {
  import opened Options
  import opened Text
  import opened Bands
  import opened PlanData

  const MessageRequired: string := "A mensagem é obrigatória"
  const InternalError: string := "Ocorreu um erro ao processar a requisição."
  /** The model's literal answer when it recognises no carrier. */
  const Sentinel: string := "Nenhuma"
  const NoPriceInfo: string := "Nenhuma informação de preço encontrada."
  const PriceHeading: string := "Preços por faixa etária:\n"

  /** The request body: unparsable JSON, or an object whose `message` may be absent. */
  datatype ChatRequest = Unparsable | Parsed(message: Option<string>)

  /** The plan query `where('empresa', '==', carrier).limit(1)`: failed, empty, or its first document. */
  datatype Lookup<V> = LookupFailed | NoMatch | Found(doc: PlanDocument<V>)

  /**
   * The outside world of one request. `None` stands for a call that threw.
   * `answer` is the second model reply as a function of what its prompt embeds:
   * the carrier, the price context and the message. `render` is `${value}`.
   */
  datatype Services<!V> = Services(
    carrierLabels: Option<seq<string>>,
    identification: Option<string>,
    plans: string -> Lookup<V>,
    answer: (string, string, string) -> Option<string>,
    render: V -> string,
    logAccepted: bool,
    now: int)

  /** A document of the `conversas_chat` collection. */
  datatype LogRecord = LogRecord(empresa: string, perguntaUsuario: string, respostaIa: string, timestamp: int)

  /** A call to an outside service, in the order the handler makes them. */
  datatype Call =
    | ReadCarriers
    | Identify
    | FindPlans(empresa: string)
    | Answer(empresa: string, context: string, pergunta: string)
    | AppendLog(record: LogRecord)

  /** `{reply}` with status 200, or `{error}` with status 400 or 500. */
  datatype ChatResponse = Reply(reply: string) | Failure(status: int, error: string)

  // ---------------------------------------------------------------------------
  // Carrier resolution

  /** The fallback test: the label's first word, lower-cased, occurs in the lower-cased message. */
  predicate FirstWordMatches(carrier: string, message: string) {
    Includes(Lower(message), FirstWord(Lower(carrier)))
  }

  function FindFrom(labels: seq<string>, message: string, from: nat): (r: Option<nat>)
    requires from <= |labels|
    ensures r.Some? ==> from <= r.value < |labels| && FirstWordMatches(labels[r.value], message)
    ensures r.Some? ==> forall k :: from <= k < r.value ==> !FirstWordMatches(labels[k], message)
    ensures r.None? ==> forall k :: from <= k < |labels| ==> !FirstWordMatches(labels[k], message)
    decreases |labels| - from
  {
    if from == |labels| then None
    else if FirstWordMatches(labels[from], message) then Some(from)
    else FindFrom(labels, message, from + 1)
  }

  /** `labels.find(...)`: the index of the first label, in list order, that passes the fallback test. */
  function FindByFirstWord(labels: seq<string>, message: string): (r: Option<nat>)
    ensures r.Some? ==> r.value < |labels| && FirstWordMatches(labels[r.value], message)
    ensures r.Some? ==> forall k :: 0 <= k < r.value ==> !FirstWordMatches(labels[k], message)
    ensures r.None? ==> forall k :: 0 <= k < |labels| ==> !FirstWordMatches(labels[k], message)
  {
    FindFrom(labels, message, 0)
  }

  /**
   * The identified carrier: the trimmed model reply; only when that is exactly
   * the sentinel does the fallback run, and a found label replaces the sentinel
   * only when it is truthy (non-empty).
   */
  function ResolveCarrier(identification: string, labels: seq<string>, message: string): (r: string)
    ensures Trim(identification) != Sentinel ==> r == Trim(identification)
    ensures Trim(identification) == Sentinel && r != Sentinel ==>
      exists k :: 0 <= k < |labels| && r == labels[k] && FirstWordMatches(labels[k], message) &&
        forall j :: 0 <= j < k ==> !FirstWordMatches(labels[j], message)
    ensures Trim(identification) == Sentinel && (forall k :: 0 <= k < |labels| ==> !FirstWordMatches(labels[k], message)) ==>
      r == Sentinel
    ensures Trim(identification) == Sentinel && FindByFirstWord(labels, message).Some? ==>
      var k := FindByFirstWord(labels, message).value;
      r == if labels[k] != "" then labels[k] else Sentinel
  {
    var identified := Trim(identification);
    if identified != Sentinel then identified
    else
      match FindByFirstWord(labels, message)
      case Some(k) => if labels[k] != "" then labels[k] else Sentinel
      case None => Sentinel
  }

  /** The fixed clarification reply, listing every known carrier. */
  function Clarification(labels: seq<string>): string {
    "Não consegui identificar sobre qual de nossas operadoras parceiras (" + Join(labels, ", ") +
    ") você está perguntando. Poderia especificar?"
  }

  /** Every known carrier label occurs in the clarification reply. */
  lemma ClarificationListsCarriers(labels: seq<string>, k: nat)
    requires k < |labels|
    ensures exists p: nat :: OccursAt(Clarification(labels), labels[k], p)
  {
    JoinContains(labels, ", ", k);
    var joined := Join(labels, ", ");
    var p: nat :| OccursAt(joined, labels[k], p);
    var front := "Não consegui identificar sobre qual de nossas operadoras parceiras (";
    var c := Clarification(labels);
    assert c == front + joined + ") você está perguntando. Poderia especificar?";
    assert c[|front| + p..|front| + p + |labels[k]|] == joined[p..p + |labels[k]|];
    assert OccursAt(c, labels[k], |front| + p);
  }

  // ---------------------------------------------------------------------------
  // Price context

  /** `enfermaria?.[0] || apartamento?.[0] || nenhum?.[0]`. */
  function ChatTier<V>(t: Tiers<V>): Option<Table<V>> {
    OrElse(FirstTable(t.enfermaria), OrElse(FirstTable(t.apartamento), FirstTable(t.nenhum)))
  }

  /** One price line: the band with its first `-` read as `" a "`, then the rendered value. */
  function PriceLine<V>(e: Entry<V>, render: V -> string): string {
    "- " + ReplaceFirst(e.0, "-", " a ") + " anos: R$ " + render(e.1) + "\n"
  }

  /** The price lines of `es`, in order. */
  function PriceLines<V>(es: seq<Entry<V>>, render: V -> string): string {
    if es == [] then "" else PriceLines(es[..|es| - 1], render) + PriceLine(es[|es| - 1], render)
  }

  /** The `Plano:` and `Acomodação:` lines every plan contributes. */
  function PlanHeader<V>(p: Plan<V>): string {
    "\nPlano: \"" + p.produto + "\"\n" + "Acomodação: " + p.acomodacao + "\n"
  }

  /**
   * The text of one plan; `None` when it has no `acomodacao_preco` (reading a tier
   * of it throws). Prices come from the chat route's tier choice, sorted by band.
   */
  function PlanText<V(==)>(p: Plan<V>, render: V -> string): Option<string> {
    match p.acomodacaoPreco
    case None => None
    case Some(tiers) =>
      match ChatTier(tiers)
      case None => Some(PlanHeader(p))
      case Some(table) => Some(PlanHeader(p) + PriceHeading + PriceLines(SortByBand(table), render))
  }

  /** The text of all plans, in order; `None` as soon as one plan's text is. */
  function PlansText<V(==)>(planos: seq<Plan<V>>, render: V -> string): Option<string> {
    if planos == [] then Some("")
    else
      match PlansText(planos[..|planos| - 1], render)
      case None => None
      case Some(front) =>
        match PlanText(planos[|planos| - 1], render)
        case None => None
        case Some(last) => Some(front + last)
  }

  /** One plan's text fails exactly when it lacks `acomodacao_preco`. */
  lemma PlanTextFails<V>(p: Plan<V>, render: V -> string)
    ensures PlanText(p, render).None? <==> p.acomodacaoPreco.None?
  {
  }

  /** The linearisation fails exactly when some plan lacks `acomodacao_preco`. */
  lemma {:induction false} PlansTextFails<V>(planos: seq<Plan<V>>, render: V -> string)
    ensures PlansText(planos, render).None? <==> exists i :: 0 <= i < |planos| && planos[i].acomodacaoPreco.None?
  {
    if planos != [] {
      var n := |planos| - 1;
      var init, last := planos[..n], planos[n];
      PlansTextFails(init, render);
      PlanTextFails(last, render);
      assert PlansText(planos, render).None? <==> PlansText(init, render).None? || PlanText(last, render).None?;
      assert forall i :: 0 <= i < n ==> init[i] == planos[i];
    }
  }

  /** The text of at least one plan starts with a newline, so it is never empty. */
  lemma {:induction false} PlansTextStartsWithNewline<V>(planos: seq<Plan<V>>, render: V -> string)
    requires planos != [] && PlansText(planos, render).Some?
    ensures |PlansText(planos, render).value| > 0 && PlansText(planos, render).value[0] == '\n'
  {
    var n := |planos| - 1;
    var front := PlansText(planos[..n], render).value;
    var last := PlanText(planos[n], render).value;
    assert last[0] == '\n';
    if n > 0 {
      PlansTextStartsWithNewline(planos[..n], render);
    }
    assert PlansText(planos, render).value == front + last;
  }

  /** `PriceLines` of a longer prefix, one band at a time. */
  lemma PriceLinesSnoc<V>(es: seq<Entry<V>>, j: nat, render: V -> string)
    requires j < |es|
    ensures PriceLines(es[..j + 1], render) == PriceLines(es[..j], render) + PriceLine(es[j], render)
  {
    assert es[..j + 1][..j] == es[..j];
  }

  lemma AppendRegroup(a: string, b: string, c: string)
    ensures a + b + c == a + (b + c)
  {
  }

  /** The price lines of a sorted table, appended one band at a time. */
  method AppendPriceLines<V>(acc: string, sorted: seq<Entry<V>>, render: V -> string) returns (text: string)
    ensures text == acc + PriceLines(sorted, render)
  {
    text := acc;
    var j := 0;
    while j < |sorted|
      invariant 0 <= j <= |sorted|
      invariant text == acc + PriceLines(sorted[..j], render)
    {
      var line := PriceLine(sorted[j], render);
      PriceLinesSnoc(sorted, j, render);
      AppendRegroup(acc, PriceLines(sorted[..j], render), line);
      text := text + line;
      j := j + 1;
    }
    assert sorted[..j] == sorted;
  }

  lemma ConcatRegroup(a: string, b: string, c: string, d: string)
    ensures a + b + c + d == a + (b + c + d)
  {
  }

  /** The body of the `forEach` for one plan: its lines appended to `acc`, or a throw. */
  method AppendPlan<V(==)>(acc: string, plano: Plan<V>, render: V -> string) returns (text: Option<string>)
    ensures PlanText(plano, render).None? ==> text.None?
    ensures PlanText(plano, render).Some? ==> text == Some(acc + PlanText(plano, render).value)
  {
    var t := acc + PlanHeader(plano);
    if plano.acomodacaoPreco.None? {
      return None;
    }
    var tier := ChatTier(plano.acomodacaoPreco.value);
    if tier.Some? {
      t := t + PriceHeading;
      var sorted := SortByBand(tier.value);
      t := AppendPriceLines(t, sorted, render);
      ConcatRegroup(acc, PlanHeader(plano), PriceHeading, PriceLines(sorted, render));
    }
    text := Some(t);
  }

  /** `PlansText` of a longer prefix, one plan at a time. */
  lemma PlansTextSnoc<V>(planos: seq<Plan<V>>, i: nat, render: V -> string)
    requires i < |planos|
    ensures PlansText(planos[..i + 1], render) ==
      match PlansText(planos[..i], render)
      case None => None
      case Some(front) =>
        match PlanText(planos[i], render)
        case None => None
        case Some(last) => Some(front + last)
  {
    assert planos[..i + 1][..i] == planos[..i];
  }

  /** The `forEach` over the plans, appending to `textoDosPlanos`; a throw ends it. */
  method LinearisePlans<V(==)>(planos: seq<Plan<V>>, render: V -> string) returns (text: Option<string>)
    ensures text == PlansText(planos, render)
  {
    var acc := "";
    var i := 0;
    while i < |planos|
      invariant 0 <= i <= |planos|
      invariant PlansText(planos[..i], render) == Some(acc)
    {
      PlansTextSnoc(planos, i, render);
      var next := AppendPlan(acc, planos[i], render);
      if next.None? {
        PlansTextFails(planos[..i + 1], render);
        PlansTextFails(planos, render);
        assert planos[..i + 1][i] == planos[i];
        return None;
      }
      acc := next.value;
      i := i + 1;
    }
    assert planos[..i] == planos;
    text := Some(acc);
  }

  /**
   * The price context handed to the second prompt: the linearised plans, or the
   * fixed notice when there is no document or the text is empty; `None` when the
   * linearisation throws.
   */
  function PriceContext<V(==)>(doc: Option<PlanDocument<V>>, render: V -> string): Option<string> {
    match doc
    case None => Some(NoPriceInfo)
    case Some(d) =>
      var planos := if d.planos.Some? then d.planos.value else [];
      match PlansText(planos, render)
      case None => None
      case Some(t) => Some(if t != "" then t else NoPriceInfo)
  }

  /** The fixed notice is the context exactly when no document matched or it lists no plans. */
  lemma PriceContextNotice<V>(doc: Option<PlanDocument<V>>, render: V -> string)
    requires PriceContext(doc, render).Some?
    ensures PriceContext(doc, render).value == NoPriceInfo <==>
      doc.None? || doc.value.planos.None? || doc.value.planos.value == []
  {
    if doc.Some? && doc.value.planos.Some? && doc.value.planos.value != [] {
      PlansTextStartsWithNewline(doc.value.planos.value, render);
      assert NoPriceInfo[0] == 'N';
    }
  }

  /** The context for the outcome of the plan query; `None` when the query or the linearisation throws. */
  function ContextFor<V(==)>(lookup: Lookup<V>, render: V -> string): Option<string> {
    match lookup
    case LookupFailed => None
    case NoMatch => PriceContext(None, render)
    case Found(d) => PriceContext(Some(d), render)
  }

  // ---------------------------------------------------------------------------
  // The handler

  /** The request carries a truthy message and both first-stage services answered. */
  predicate Identified<V>(request: ChatRequest, svc: Services<V>) {
    request.Parsed? && Truthy(request.message) && svc.carrierLabels.Some? && svc.identification.Some?
  }

  /** Stages 3 and 4 for an identified carrier: the calls made and the response. */
  ghost predicate Answered<V>(carrier: string, message: string, svc: Services<V>, resp: ChatResponse, calls: seq<Call>) {
    match ContextFor(svc.plans(carrier), svc.render)
    case None =>
      resp == Failure(500, InternalError) && calls == [FindPlans(carrier)]
    case Some(context) =>
      match svc.answer(carrier, context, message)
      case None =>
        resp == Failure(500, InternalError) && calls == [FindPlans(carrier), Answer(carrier, context, message)]
      case Some(reply) =>
        calls == [FindPlans(carrier), Answer(carrier, context, message), AppendLog(LogRecord(carrier, message, reply, svc.now))] &&
        resp == (if svc.logAccepted then Reply(reply) else Failure(500, InternalError))
  }

  /**
   * A reply is returned only after it has been logged, exactly once, as the last
   * call, with the carrier, the question and that reply; the log holds nothing
   * for an exchange the model did not answer.
   */
  lemma AnsweredLogsOnce<V>(carrier: string, message: string, svc: Services<V>, resp: ChatResponse, calls: seq<Call>)
    requires Answered(carrier, message, svc, resp, calls)
    ensures resp.Reply? ==> calls[|calls| - 1] == AppendLog(LogRecord(carrier, message, resp.reply, svc.now))
    ensures forall i :: 0 <= i < |calls| && calls[i].AppendLog? ==>
      i == |calls| - 1 && calls[i].record.empresa == carrier && calls[i].record.perguntaUsuario == message
    ensures (exists i :: 0 <= i < |calls| && calls[i].AppendLog?) <==>
      (ContextFor(svc.plans(carrier), svc.render).Some? &&
       svc.answer(carrier, ContextFor(svc.plans(carrier), svc.render).value, message).Some?)
  {
    var context := ContextFor(svc.plans(carrier), svc.render);
    if context.Some? && svc.answer(carrier, context.value, message).Some? {
      assert calls[2].AppendLog?;
    }
  }

  /** The reassignments of `operadoraIdentificada`: the trimmed reply, then the fallback on the sentinel. */
  method IdentifyCarrier(identification: string, labels: seq<string>, message: string) returns (identified: string)
    ensures identified == ResolveCarrier(identification, labels, message)
  {
    identified := Trim(identification);
    if identified == Sentinel {
      var found := FindByFirstWord(labels, message);
      if found.Some? && labels[found.value] != "" {
        identified := labels[found.value];
      }
    }
  }

  /**
   * Stages 3 and 4: query the carrier's plans, build the price context, ask for the
   * answer and log it; a throw anywhere ends in the generic 500.
   */
  method AnswerFor<V(==)>(carrier: string, message: string, svc: Services<V>) returns (resp: ChatResponse, calls: seq<Call>)
    ensures Answered(carrier, message, svc, resp, calls)
  {
    var context := NoPriceInfo;
    calls := [FindPlans(carrier)];
    var lookup := svc.plans(carrier);
    if lookup.LookupFailed? {
      return Failure(500, InternalError), calls;
    }
    if lookup.Found? {
      var planos := if lookup.doc.planos.Some? then lookup.doc.planos.value else [];
      var text := LinearisePlans(planos, svc.render);
      if text.None? {
        return Failure(500, InternalError), calls;
      }
      if text.value != "" {
        context := text.value;
      }
    }
    assert ContextFor(lookup, svc.render) == Some(context);

    calls := calls + [Answer(carrier, context, message)];
    var answer := svc.answer(carrier, context, message);
    if answer.None? {
      return Failure(500, InternalError), calls;
    }
    var reply := answer.value;

    calls := calls + [AppendLog(LogRecord(carrier, message, reply, svc.now))];
    if !svc.logAccepted {
      return Failure(500, InternalError), calls;
    }
    resp := Reply(reply);
  }

  /** `POST /api/chat`. */
  method Post<V(==)>(request: ChatRequest, svc: Services<V>) returns (resp: ChatResponse, calls: seq<Call>)
    ensures request.Unparsable? ==> resp == Failure(500, InternalError) && calls == []
    ensures request.Parsed? && !Truthy(request.message) ==> resp == Failure(400, MessageRequired) && calls == []
    ensures request.Parsed? && Truthy(request.message) && svc.carrierLabels.None? ==>
      resp == Failure(500, InternalError) && calls == [ReadCarriers]
    ensures request.Parsed? && Truthy(request.message) && svc.carrierLabels.Some? && svc.identification.None? ==>
      resp == Failure(500, InternalError) && calls == [ReadCarriers, Identify]
    ensures Identified(request, svc) ==>
      var labels := svc.carrierLabels.value;
      var carrier := ResolveCarrier(svc.identification.value, labels, request.message.value);
      if carrier == Sentinel then
        resp == Reply(Clarification(labels)) && calls == [ReadCarriers, Identify]
      else
        |calls| >= 2 && calls[..2] == [ReadCarriers, Identify] &&
        Answered(carrier, request.message.value, svc, resp, calls[2..])
  {
    calls := [];
    if request.Unparsable? {
      return Failure(500, InternalError), calls;
    }
    if !Truthy(request.message) {
      return Failure(400, MessageRequired), calls;
    }
    var message := request.message.value;

    calls := calls + [ReadCarriers];
    if svc.carrierLabels.None? {
      return Failure(500, InternalError), calls;
    }
    var labels := svc.carrierLabels.value;

    calls := calls + [Identify];
    if svc.identification.None? {
      return Failure(500, InternalError), calls;
    }
    var identified := IdentifyCarrier(svc.identification.value, labels, message);
    if identified == Sentinel {
      return Reply(Clarification(labels)), calls;
    }

    var later;
    resp, later := AnswerFor(identified, message, svc);
    calls := calls + later;
    assert calls[2..] == later;
  }
}
