# Health-plan price tables: a Dafny model

The application lists health-plan carriers whose price tables sit in a storage
bucket. It shows each carrier's plans and their prices by age band in an
editable grid. It also answers price questions through a chat widget that talks
to a language-model route. This project models the deterministic core of that
application and proves what it promises:

- the carrier listing route (`GET /api/operadoras`), which derives each carrier's key and display label from its storage folder (`carrier_listing.dfy`);
- the chat route (`POST /api/chat`), covering validation, carrier identification with the `"Nenhuma"` sentinel and first-word fallback, the clarification reply, linearisation of a plan document into a price context, and the logged second reply (`chat_route.dfy`);
- the home page's state and effects, covering the carrier and plan selection, the table fetch, and the tier choice and stable ordering of prices (`home_page.dfy`);
- the editable price table, a small state machine over prices, the band in edit mode and the edit buffer (`price_editor.dfy`);
- the floating chat widget's send cycle (`floating_chat.dfy`).

Shared pieces:

- `text.dfy` holds the JavaScript string operations the code relies on: first-occurrence `replace`, `trim`, `toLowerCase`, `split(' ')[0]`, `join`, `\w`/`\b` and truthiness.
- `bands.dfy` holds `parseInt` of an age band and the stable sort by it, with its permutation, order and stability proofs.
- `plan_data.dfy` holds the shape of a plan document.
- `options.dfy` holds `Option`.

The storage bucket, the document database, the language model, `fetch`, the clock and number formatting are not modelled as code. Their results are parameters: the `Services` record of the chat route, and the outcome arguments of the page and widget methods. The chat route's handler returns the sequence of service calls it made, so "no lookup, no second generation, no log" can be stated.

## Model

| member | source | states |
|---|---|---|
| Text.IndexFrom | src/app/api/chat/route.jsx:129 | `indexOf` from a position: the first occurrence at or after it, none before it, `None` only when there is none |
| Text.ReplaceFirstSpec | src/app/api/operadoras/route.jsx:25 | `replace` with a string pattern: unchanged when the pattern is absent, otherwise only its earliest occurrence is replaced |
| Text.Trim | src/app/api/chat/route.jsx:125 | `trim` removes exactly the leading and trailing JavaScript white space: the result is a slice of the input that neither starts nor ends with white space |
| Text.TrimEmptyIffBlank | src/components/FloatingChat.jsx:41 | `s.trim() === ''` holds exactly when every character of `s` is white space |
| Text.UpperAscii | src/app/api/operadoras/route.jsx:27 | upper-casing maps `a`-`z` to `A`-`Z`, fixes every other character and keeps word characters word characters |
| Text.FirstWord | src/app/api/chat/route.jsx:129 | `split(' ')[0]` is the longest prefix without a space, followed by a space or the end |
| Text.JoinContains | src/app/api/chat/route.jsx:134 | every element of a joined list occurs in the joined text |
| Bands.LeadingDigits | src/app/page.jsx:197-198 | the digits `parseInt` reads from a band that starts with a digit: the maximal run of decimal digits at its start (leading white space, a sign and a `0x` prefix are not modelled; see Left out) |
| Bands.ParseIntExamples | src/app/page.jsx:197-198 | `"00-18"` reads 0, `"19-23"` reads 19, `"59+"` reads 59 |
| Bands.InsertPermutes | src/app/page.jsx:196-200 | one insertion step adds exactly the inserted entry to the multiset |
| Bands.InsertSorted | src/app/page.jsx:196-200 | one insertion step keeps a sorted sequence sorted |
| Bands.SortByPermutesAndSorts | src/app/page.jsx:196-200 | the stable insertion sort returns a permutation of its input, ascending by key |
| Bands.SortByBand | src/app/api/chat/route.jsx:154 | sorting by `parseInt` of the band returns a permutation of the entries, ascending by that integer |
| Bands.SortByStable | src/app/page.jsx:196-200 | entries with equal keys keep their original relative order |
| Bands.SortByBandStable | src/app/page.jsx:196-200 | bands that read the same integer keep their order in the table |
| Bands.SortKeepsDistinct | src/app/page.jsx:201 | sorting keeps the bands distinct and the same set, so `Object.fromEntries` loses none |
| PlanData.FirstTable | src/app/api/chat/route.jsx:151 | `tier?.[0]` is present exactly when the tier is present and non-empty, and is its first table |
| CarrierListing.CarrierKeyOfFolder | src/app/api/operadoras/route.jsx:25 | the folder `processados/<name>/` has key `<name>` when `name` has no `/` |
| CarrierListing.CapitalizeWordsAt | src/app/api/operadoras/route.jsx:27 | `replace(/\b\w/g, toUpperCase)` keeps the length and upper-cases exactly the word characters that start a `\w` run |
| CarrierListing.LabelAt | src/app/api/operadoras/route.jsx:27 | the label has the key's length; underscores become spaces, word initials are upper-cased, every other character is unchanged |
| CarrierListing.LabelHasNoUnderscore | src/app/api/operadoras/route.jsx:27 | no `_` survives in a label |
| CarrierListing.LabelIdempotent | src/app/api/operadoras/route.jsx:27 | formatting a label again leaves it unchanged |
| CarrierListing.LabelExample | src/app/api/operadoras/route.jsx:27 | `"aurora_saude"` becomes `"Aurora Saude"` |
| CarrierListing.LabelNonAsciiExample | src/app/api/operadoras/route.jsx:27 | `\w` is ASCII-only, so `"saúde"` becomes `"SaúDe"` |
| CarrierListing.ToCarrier | src/app/api/operadoras/route.jsx:25-29 | a folder's entry has the folder's key as `value` and that key's label as `label` |
| CarrierListing.ListCarriers | src/app/api/operadoras/route.jsx:24-36 | one entry per prefix, in order, with key and label; no prefixes give an empty array; a failed listing or absent `CommonPrefixes` gives 500 with the fixed error |
| ChatRoute.FindByFirstWord | src/app/api/chat/route.jsx:129 | `find`: the first label, in list order, whose lower-cased first word occurs in the lower-cased message; `None` when no label does |
| ChatRoute.ResolveCarrier | src/app/api/chat/route.jsx:125-131 | the carrier is the trimmed model reply unless that is exactly `"Nenhuma"`; then it is the first matching label when that label is non-empty, and it stays `"Nenhuma"` when none matches or the match is the empty (falsy) label |
| ChatRoute.IdentifyCarrier | src/app/api/chat/route.jsx:125-131 | the step-by-step reassignment of the identified carrier computes `ResolveCarrier` |
| ChatRoute.ClarificationListsCarriers | src/app/api/chat/route.jsx:133-135 | the clarification reply contains every known carrier label |
| ChatRoute.PlansTextFails | src/app/api/chat/route.jsx:148-151 | linearisation throws exactly when some plan has no `acomodacao_preco` |
| ChatRoute.PlansTextStartsWithNewline | src/app/api/chat/route.jsx:149 | the text of a non-empty plan list starts with a line break, so it is never empty |
| ChatRoute.AppendPriceLines | src/app/api/chat/route.jsx:154-156 | the loop appends one price line per band, in the sorted order |
| ChatRoute.AppendPlan | src/app/api/chat/route.jsx:149-157 | appending one plan adds its `Plano:` and `Acomodação:` lines, then the heading and price lines of the chat tier when one has a table; it fails without `acomodacao_preco` |
| ChatRoute.LinearisePlans | src/app/api/chat/route.jsx:146-158 | the `forEach` loop over the plans builds the plan text, or fails as the specification function does |
| ChatRoute.PriceContextNotice | src/app/api/chat/route.jsx:138-161 | the context is the fixed notice exactly when no document matched or its `planos` is absent or empty |
| ChatRoute.AnsweredLogsOnce | src/app/api/chat/route.jsx:182-189 | a returned reply was logged exactly once, as the last call, with the carrier, the question and the reply; nothing is logged without a model reply |
| ChatRoute.AnswerFor | src/app/api/chat/route.jsx:137-193 | stages 3 and 4: plan lookup, context, second reply and log, in that order, each failure giving the generic 500 |
| ChatRoute.Post | src/app/api/chat/route.jsx:22-194 | unparsable body gives 500 and a falsy message 400, both with no call; carriers, then identification; the sentinel gives the clarification with no lookup, generation or log; otherwise the answer stage |
| HomePage.AvailablePlans | src/app/page.jsx:99 | the plans are `planos`, or none when the data or `planos` is absent |
| HomePage.FindPlan | src/app/page.jsx:101 | the first plan whose `produto` is the name; none before it; `None` when no plan has it |
| HomePage.PlanDetail | src/app/page.jsx:100-102 | no detail without a truthy selection; otherwise the first plan with that `produto`, or none when no plan has it |
| HomePage.PageTierPriority | src/app/page.jsx:188-191 | the page shows the first table of the first non-empty tier in the order nenhum, enfermaria, apartamento |
| HomePage.TierPrioritiesDiffer | src/app/page.jsx:188-191 | with both a nenhum and an enfermaria table, the page shows nenhum while the chat quotes enfermaria; with one tier they agree |
| HomePage.OrderedPrices | src/app/page.jsx:188-202 | no tier gives no entries; otherwise a permutation of the tier's entries ascending by `parseInt` of the band; the render throws without `acomodacao_preco` |
| HomePage.OrderedPricesStable | src/app/page.jsx:196-200 | bands reading the same integer keep the tier's order |
| HomePage.OrderedPricesKeepBands | src/app/page.jsx:201 | distinct tier bands stay distinct and all present after ordering |
| HomePage.NoticeIffNoPlans | src/app/page.jsx:99 | for the same document, the chat's no-price notice appears exactly when the page lists no plans |
| HomePage.Details | src/app/page.jsx:183-210 | skeleton while loading; when not loading, nothing without a plan detail, and with one exactly that plan's name, accommodation and ordered prices, or the render error when it lacks `acomodacao_preco` |
| HomePage.FindCarrier | src/app/page.jsx:72 | the carrier with the selected value, or none when no listed carrier has it |
| HomePage.Home.constructor | src/app/page.jsx:24-33 | nothing listed or selected, no table data, the carrier list loading |
| HomePage.Home.LoadCarriers | src/app/page.jsx:36-62 | the fetched list replaces the carriers and its first value becomes the selection; a failed or empty list keeps the selection; loading ends |
| HomePage.Home.SelectCarrier | src/app/page.jsx:146 | a carrier click sets only the selection |
| HomePage.Home.SelectPlan | src/app/page.jsx:169 | a plan click sets only the selected plan |
| HomePage.Home.BeginTableFetch | src/app/page.jsx:66-82 | skipped without a truthy selection or carriers; otherwise the selected plan is cleared, and a selection missing from the list ends loading without a request |
| HomePage.Home.FinishTableFetch | src/app/page.jsx:83-93 | the fetched document, or null on failure, becomes the table data; loading ends |
| HomePage.Home.View | src/app/page.jsx:183-210 | the details column for the current state: skeleton while loading; otherwise nothing without a selected plan, and with one exactly its name, accommodation and ordered prices, or the render error |
| PriceEditor.Initial | src/components/tableprecos.jsx:9 | the initial prices: the prop's entries in order, or none when the prop is absent |
| PriceEditor.Lookup | src/components/tableprecos.jsx:28 | reading `precos[faixa]`: a band has a value exactly when it is among the keys, and that value is the one stored under its first occurrence |
| PriceEditor.SetBandKeys | src/components/tableprecos.jsx:28 | saving keeps the band order, appending a band that was not there |
| PriceEditor.SetBandLookup | src/components/tableprecos.jsx:28 | after saving, the band holds the buffer and every other band its old value |
| PriceEditor.SetBandKeepsDistinct | src/components/tableprecos.jsx:28 | saving keeps the bands distinct |
| PriceEditor.Rows | src/components/tableprecos.jsx:47-91 | one row per band, in order, in edit mode with the buffer exactly when it is the edited band, otherwise with its value |
| PriceEditor.Render | src/components/tableprecos.jsx:33-95 | the notice exactly when the price object is empty; for a non-empty one, the grid of its rows |
| PriceEditor.AtMostOneEditing | src/components/tableprecos.jsx:15-48 | with distinct bands, at most one row is in edit mode |
| PriceEditor.Editor.constructor | src/components/tableprecos.jsx:9-16 | starts with the prop's prices, no band in edit mode and an empty buffer |
| PriceEditor.Editor.ReceiveProp | src/components/tableprecos.jsx:11-13 | a new prop replaces the prices and nothing else |
| PriceEditor.Editor.HandleEdit | src/components/tableprecos.jsx:18-21 | exactly that band enters edit mode and its value is copied to the buffer; prices unchanged |
| PriceEditor.Editor.HandleCancel | src/components/tableprecos.jsx:23-25 | no band in edit mode; prices and buffer unchanged |
| PriceEditor.Editor.Type | src/components/tableprecos.jsx:54 | typing sets only the buffer |
| PriceEditor.Editor.HandleSave | src/components/tableprecos.jsx:27-31 | that band takes the buffer, other bands and the band order are kept, edit mode ends |
| PriceEditor.Editor.View | src/components/tableprecos.jsx:33-95 | the notice exactly when there are no prices, otherwise the grid of the current state's rows; with the object's distinct bands, at most one row is in edit mode |
| FloatingChat.BotText | src/components/FloatingChat.jsx:60-77 | the reply for an OK response without a truthy `error`; the fixed apology for a failing status, an `error` or a thrown fetch |
| FloatingChat.ShowsRouteReply | src/components/FloatingChat.jsx:60-72 | the widget shows exactly the chat route's reply, and the apology for every failure of the route |
| FloatingChat.ChatWidget.constructor | src/components/FloatingChat.jsx:20-25 | closed, not loading, empty input, and only the greeting |
| FloatingChat.ChatWidget.Open | src/components/FloatingChat.jsx:171 | opening sets only `isOpen` |
| FloatingChat.ChatWidget.Close | src/components/FloatingChat.jsx:110 | closing clears only `isOpen` |
| FloatingChat.ChatWidget.Type | src/components/FloatingChat.jsx:144 | typing sets only the input |
| FloatingChat.ChatWidget.BeginSend | src/components/FloatingChat.jsx:40-47 | refused for white-space-only input or while loading, with nothing changed; otherwise the untrimmed input is appended as the user's message and sent, the input is cleared and loading starts |
| FloatingChat.ChatWidget.FinishSend | src/components/FloatingChat.jsx:60-80 | exactly one bot message, reply or apology, is appended; loading ends |
| FloatingChat.ChatWidget.SendMessage | src/components/FloatingChat.jsx:40-81 | a whole send appends nothing when refused, else the user's message and then one bot message; earlier messages are never changed |

## Left out

- The storage listing call, the document-database reads and writes, the language-model calls, `fetch`, `response.json()` and `new Date()` are not modelled as code. Their outcomes are parameters: a `Listing`, the `Services` record, and the outcome arguments of the page and widget methods.
- The prompt texts of the chat route are not modelled. The model's second reply is a function of what that prompt embeds: the carrier, the price context and the message.
- The configuration and client set-up are not modelled: environment checks, credential decoding and initialisation.
- Number formatting of prices (`${value}`) is a parameter `render`. Price values are opaque.
- Bands.ParseInt: reads only a run of decimal digits at the very start of a band, and reads every other band as 0. JavaScript's `parseInt` first skips leading white space and accepts a sign, so `" 18"` and `"+18"` read 18 and `"-5"` reads -5. A band with no digit after those gives `NaN`, and the sort order with such a band is implementation-defined. The chat route calls `parseInt` without a radix (src/app/api/chat/route.jsx:154), so there a band starting with `0x` is read as hexadecimal. The model also reads digit runs beyond 2^53 exactly, where JavaScript loses precision.
- Text.Lower: lower-cases ASCII and Latin-1 capitals only. Other scripts are left unchanged.
- Characters are Unicode scalar values rather than UTF-16 code units. Lengths and indices differ for characters outside the Basic Multilingual Plane.
- JavaScript lists integer-like object keys (such as `"18"`) first, in numeric order, whatever their insertion order. Price objects are modelled in insertion order, which assumes band labels are not canonical integers.
- Chat requests and carrier labels are assumed to be strings. A non-string `message` or a missing `label` throws only in the fallback `find` (src/app/api/chat/route.jsx:129), which runs only when the trimmed reply is `"Nenhuma"`. On every other path a non-string `message` goes into the prompt and the log without error, and a missing `label` joins as an empty string in the clarification (src/app/api/chat/route.jsx:134).
- A successful response without a `reply` field is not modelled. The widget would show an empty bot message.
- Asynchronous interleaving is not modelled: each effect or handler is an atomic step, or two steps split at its request. React batching is not modelled either. `LoadCarriers` sets the loading flag, then clears it within one step.
- When the price table's `useEffect` fires depends on React's identity comparison of the prop. The model lets the caller decide, through `ReceiveProp`.
- Rendering details are not modelled: JSX layout, skeleton shapes, transitions, scrolling to the last message, and the `empresa` heading.
- The plan route `src/app/api/[operadora]/route.jsx` that the page fetches is not part of this model. Its result is the outcome of `FinishTableFetch`.
