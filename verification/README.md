# Cerious trading stack: a verified model

The stack consists of an in-memory exchange, a server that keeps positions and
profit for it, a FIX 4.4 codec, a gateway with an order-covering desk, a
regression study and a trade importer, and a terminal that shows the book.
This project models the parts that carry state or arithmetic and proves what
they are for.

| files | part of the system |
|---|---|
| `Orders`, `BookSpec`, `BookInvariant` | orders, reports and deltas; the exchange as steps on flat price-time queues; its invariant |
| `Levels`, `Working`, `Exchange` | price levels and queues, the working-order sort, and the exchange as a class that updates books, registry and sequence in place |
| `Priority`, `CommandLaws`, `Reach`, `Runs`, `Numbering`, `ReportLog`, `Restart`, `Restorer` | what matching and sweeping mean, what each command does to books, registry and reports, whom a command fills, whole runs, the numbering of reports, the report log, the restart |
| `ClientBook`, `DeltaReplay` | the terminal's book reducer and its agreement with the exchange |
| `Ledger`, `FifoLots`, `FifoUnits`, `Server`, `Neutral`, `Session` | average-cost positions, FIFO lots, lots as a queue of single contracts, the server's ledger in place, neutrality of internal trades, the server's routes from command to ledger |
| `Numbers`, `FixText`, `FixBuilder`, `FixParser`, `FixCodec`, `FixWire`, `FixFramer` | FIX messages: printing into buffers, parsing, round trip, damage, the text on the wire, framing of a byte stream |
| `Bars`, `Regression` | the gateway's bar aggregation and least-squares fit |
| `Covers`, `Responses`, `CoverRuns`, `Gateway`, `CoverSides`, `GatewayRuns` | the gateway's cover orders, which way they go, what the exchange prints for them, both over whole runs, and the gateway's loop around the exchange |
| `SessionText`, `JsonText` | the strings, objects and arrays of the saved session, and what the JSON standard reads in them |

`dafny verify dfyconfig.toml` checks everything.

## How the exchange is modelled

`Exchange.DeterministicExchange` has the source's three fields: books of
levels and queues, a registry from ids to places, and a sequence counter. Its
methods follow the source's nested loops. `View()` forgets the levels: each
side becomes one sequence of orders in price-time order. Every method ensures
that the new view and the returned batch are what the flat step in `BookSpec`
makes of the old view. What the steps do is then stated apart from how they are
computed: `CommandLaws` spells out, command by command, the queues, registry,
reports and deltas afterwards, in prices, quantities and places of the state
before. The steps are further shown to match in price-time order (`Priority`,
`Reach`), to keep the invariant (`BookInvariant`), and to add up over runs
(`Runs`, `ReportLog`, `DeltaReplay`, `Neutral`, `Restart`). `Sound` and
`Locatable` appear in some preconditions only because the step functions need
them; `BookInvariant.WellFormedIsSound` derives both from the invariant.

## What turned out to hold only under a condition

- A restart resubmits the working orders sorted by symbol, time and sequence.
  Levels always come back; queues come back in order if and only if no order
  of a level carries an earlier time than an order ahead of it. Times come from
  the client, so this can fail (`Restart.EarlierTimeOvertakes`).
- A built FIX message with more than 56 user fields has more fields than the
  parser's 64 slots. The parser then calls it valid, returns the first 64
  fields and never looks at the checksum, so damage is not noticed. Both facts
  are stated as equivalences; `FixCodec.OneFieldTooMany` is a message of 57
  short fields that fits the builder's buffers.
- The server keeps the last 5000 fills. A ledger rebuilt from them has the old
  quantity if and only if the dropped fills net to zero, and the old total at a
  mark if and only if the dropped fills have made nothing at that mark
  (`Server.OneFillTooMany`: 5001 buys).
- A replace whose price or quantity is bad removes the order first and is
  refused afterwards: the order is lost (`Runs.ReplacedByNothing`).
- Cover orders add up to the lesser of the policy quantity and the distinct
  fills if and only if no single fill exceeds the policy quantity; otherwise
  the total is the largest fill (`Covers.LargeFillOvershoots`).
- The gateway does not hand the responses to its own cover orders to the
  covering desk. Within its policy, all that is filled of an entry is covered if
  and only if no unheard command reaches the entry. Whether a command reaches an
  order can be read off the book before it is carried out: the order must cross
  the command's price, and the orders ahead of it must not use its quantity up
  (`Reach.StepReaches`). In `GatewayRuns.CoverMeetsItsEntry` the desk's own cover
  trades with what is left of its entry.
- Fills of the exchange carry no timestamp under the name the cover's id is made
  of, so the id takes the gateway's clock: the covers that answer one response
  for one entry share an id (`GatewayRuns.OneResponseOneId`). The exchange
  refuses the second if and only if the first is still registered, and an
  accepted cover is if and only if the other side cannot fill it
  (`GatewayRuns.SecondCoverIsRefused`, `GatewayRuns.SecondCoverIsLost`).
- The session writer escapes every control character, the reader knows only
  newline, return and tab: a string is read back unchanged if and only if it
  has no other control character, and is not empty where a fallback is given
  (`SessionText.BackspaceBecomesB`).
- An order may itself be named `MARKET_DATA`, the name that market fills use as
  their counterparty. Neutrality is therefore stated per command, not by
  looking at counterparties.

## Model

| member | source | states |
|---|---|---|
| Exchange.DeterministicExchange.SubmitOrderBatch | native/cerious-exchange-cpp/src/DeterministicExchange.hpp:240-295 | submitting does to the price-time view what the flat step says, batch included, with the five refusals in the source's order, and keeps the invariant |
| Exchange.DeterministicExchange.Accept | native/cerious-exchange-cpp/src/DeterministicExchange.hpp:265-294 | an accepted order is matched first, then its remainder rests, or is cancelled if it is a market or immediate-or-cancel order |
| Exchange.DeterministicExchange.TradeWith | native/cerious-exchange-cpp/src/DeterministicExchange.hpp:540-551 | one trade shrinks both orders by the same quantity, reports both sides at the resting price, and unregisters a filled resting order |
| Exchange.DeterministicExchange.MatchQueue | native/cerious-exchange-cpp/src/DeterministicExchange.hpp:536-555 | the queue loop of one level leaves exactly the matching that is still owed on the flat side, and ends with an empty queue or a filled order |
| Exchange.DeterministicExchange.MatchIncoming | native/cerious-exchange-cpp/src/DeterministicExchange.hpp:529-565 | the nested level and queue loop refines order-by-order matching on the flat side, and the levels stay sorted and non-empty |
| Exchange.DeterministicExchange.RestOrder | native/cerious-exchange-cpp/src/DeterministicExchange.hpp:567-585 | a remainder joins the back of its level, is registered at its true place, and its delta carries the level's new totals |
| Exchange.DeterministicExchange.RemoveRegistered | native/cerious-exchange-cpp/src/DeterministicExchange.hpp:587-620 | taking an order out through its registry entry takes exactly that order out of the flat side, and the delta says whether the level is gone |
| Exchange.DeterministicExchange.CancelOrderBatch | native/cerious-exchange-cpp/src/DeterministicExchange.hpp:301-319 | cancel does to the view what the flat step says and keeps the invariant |
| Exchange.DeterministicExchange.ReplaceOrderBatch | native/cerious-exchange-cpp/src/DeterministicExchange.hpp:325-359 | replace is a removal followed by a submit of the changed order, both in one batch, and keeps the invariant |
| Exchange.DeterministicExchange.SweepQueue | native/cerious-exchange-cpp/src/DeterministicExchange.hpp:639-650 | a triggered level fills order by order, exactly as the flat sweep does |
| Exchange.DeterministicExchange.SweepSide | native/cerious-exchange-cpp/src/DeterministicExchange.hpp:634-670 | the level loop of one side refines the flat sweep of that side |
| Exchange.DeterministicExchange.ApplyMarketDataBatch | native/cerious-exchange-cpp/src/DeterministicExchange.hpp:365-375 | a tick sweeps the asks and then the bids of its symbol and keeps the invariant; an unknown symbol changes nothing |
| Exchange.DeterministicExchange.ResetBooksAndRegistry | native/cerious-exchange-cpp/src/DeterministicExchange.hpp:405-412 | all books and the registry are empty afterwards and the sequence moves on by one |
| Exchange.DeterministicExchange.CollectWorkingOrders | native/cerious-exchange-cpp/src/DeterministicExchange.hpp:391-403 | the result lists every resting order exactly once, sorted by symbol, time and sequence |
| Exchange.DeterministicExchange.RegisteredOrder | native/cerious-exchange-cpp/src/DeterministicExchange.hpp:315-341 | following the registry finds the order with that id |
| Exchange.DeterministicExchange.AggregateQuantity | native/cerious-exchange-cpp/src/DeterministicExchange.hpp:491-498 | the loop returns the total of the level at a price, or zero if there is none |
| Exchange.DeterministicExchange.AppendBookDelta | native/cerious-exchange-cpp/src/DeterministicExchange.hpp:506-527 | a delta carries the quantity and count that the flat side has at that price, and zeros for a deletion |
| Exchange.DeterministicExchange.AppendLevels | native/cerious-exchange-cpp/src/DeterministicExchange.hpp:672-681 | the lines are levels of the flat side, best first, each with the quantity and count the side has at its price; a level is missing only if the bound is reached and all lines are better |
| Exchange.DeterministicExchange.Snapshot | native/cerious-exchange-cpp/src/DeterministicExchange.hpp:377-389 | the snapshot carries symbol, clock and sequence; both sides of a known symbol show their best levels, an unknown symbol shows nothing |
| Priority.MatchIsPriceTime | native/cerious-exchange-cpp/src/DeterministicExchange.hpp:529-565 | matching fills exactly a prefix of the opposite side in price-time order, all of it crossing the limit and each part at the resting price, all but perhaps the last in full, leaves the rest untouched, and stops only when the order is used up or nothing left crosses; the reports are exactly those of that prefix, and there is one delta for each price touched, with what is left there |
| Priority.MarketOrderSweepsTheSide | native/cerious-exchange-cpp/src/DeterministicExchange.hpp:271-287 | what is left of a market order means an empty opposite side |
| Priority.SweepIsFilter | native/cerious-exchange-cpp/src/DeterministicExchange.hpp:634-670 | stopping at the first untriggered level is filtering the whole side: exactly the triggered orders go, each filled in full at its own limit, with one delta for each price |
| Priority.TickIsFilter | native/cerious-exchange-cpp/src/DeterministicExchange.hpp:622-670 | after a tick exactly the untriggered orders rest, in their old order, no other book changes, and nothing that rests is triggered by that tick |
| CommandLaws.GoodOrderTrades | native/cerious-exchange-cpp/src/DeterministicExchange.hpp:240-295 | an order with a known symbol, a new id, a quantity and, if limit, a price is accepted and takes what crosses it off the front of the other side; what is left of a day or good-till-cancel limit order joins its queue behind its price and is registered, what is left of any other is cancelled; books, registry, sequence, reports and deltas are spelled out |
| CommandLaws.BadOrderIsRefused | native/cerious-exchange-cpp/src/DeterministicExchange.hpp:244-263 | any other order changes no book and no entry; the one report carries the order's own fields and the first of the five reasons that applies |
| CommandLaws.CancelTakesOneOut | native/cerious-exchange-cpp/src/DeterministicExchange.hpp:301-319 | cancelling a registered id removes exactly that order from the side its registry entry names and exactly that entry from the registry; the one report says Canceled with what remained and the given or the default reason, the one delta what is left of the level |
| CommandLaws.CancelOfNothing | native/cerious-exchange-cpp/src/DeterministicExchange.hpp:306-311 | cancelling any other id changes nothing and is refused with order_not_found |
| CommandLaws.ReplaceResubmits | native/cerious-exchange-cpp/src/DeterministicExchange.hpp:325-359 | replacing a registered id takes that order out, reports Replaced with what remained, and submits an order of the old id, symbol, side, kind, time in force and metadata at the given or old price for the given or remaining quantity |
| CommandLaws.GoodReplacementTrades | native/cerious-exchange-cpp/src/DeterministicExchange.hpp:339-358 | unless the command names a bad price or quantity, that order is accepted and trades like any good order, from the books without the old one |
| CommandLaws.ReplacementRests | native/cerious-exchange-cpp/src/DeterministicExchange.hpp:339-358 | a good replacement that crosses nothing is reported Replaced, Accepted and Resting, joins the queue of its price and is registered there, the other side untouched |
| CommandLaws.ReplaceOfNothing | native/cerious-exchange-cpp/src/DeterministicExchange.hpp:330-335 | replacing an id that is not registered changes nothing and is refused with order_not_found |
| CommandLaws.TickFillsThrough | native/cerious-exchange-cpp/src/DeterministicExchange.hpp:622-670 | a tick leaves exactly the bids that are below last and best ask and exactly the offers that are above last and best bid, each only as far as the tick has them; all others are filled in full at their own prices, offers first, and leave the registry |
| CommandLaws.QuoteInsideTheSpread | native/cerious-exchange-cpp/src/DeterministicExchange.hpp:622-632 | a quote that lies inside the book's spread, without a trade, changes nothing |
| CommandLaws.ResetEmptiesAll | native/cerious-exchange-cpp/src/DeterministicExchange.hpp:405-412 | every queue and the registry are empty, the products stay |
| Reach.SubmitFills | native/cerious-exchange-cpp/src/DeterministicExchange.hpp:529-565 | of every order that rests against an accepted one, exactly what its place in the queue leaves for it is filled; of the accepted order itself, all that crosses up to its quantity; of any other order, nothing |
| Reach.SubmitRegisters | native/cerious-exchange-cpp/src/DeterministicExchange.hpp:265-294 | an accepted order is registered afterwards if and only if it may rest and less crosses it than its quantity |
| Reach.StepReaches | native/cerious-exchange-cpp/src/DeterministicExchange.hpp:240-412 | any command fills something of an order if and only if it reaches it, which is read off the state before: price, quantity and the queue ahead for orders and replacements, the trigger prices for market data, never for cancels and resets |
| BookInvariant.MatchKeepsSide | native/cerious-exchange-cpp/src/DeterministicExchange.hpp:529-565 | matching keeps the other side in price-time order and in bijection with the registry, and leaves nothing there that crosses the order |
| BookInvariant.RestOk | native/cerious-exchange-cpp/src/DeterministicExchange.hpp:567-585 | resting an order that crosses nothing keeps queues in order, books uncrossed and the registry exact |
| BookInvariant.StepOk | native/cerious-exchange-cpp/src/DeterministicExchange.hpp:240-412 | every command keeps the invariant of books and registry |
| Runs.ReachableState | native/cerious-exchange-cpp/src/DeterministicExchange.hpp:240-412 | after any run from an empty exchange: best bid below best ask, sequence increasing inside a level, only live limit orders resting, every registered id resting at its registered place and nowhere else, no resting order unregistered |
| Runs.BadReplacementLosesTheOrder | native/cerious-exchange-cpp/src/DeterministicExchange.hpp:339-358 | a replacement is refused exactly if the command names a bad price or quantity, and then the old order is gone |
| Runs.ReplacedByNothing | native/cerious-exchange-cpp/src/DeterministicExchange.hpp:339-358 | a bid that rests and is replaced by a quantity of zero is no longer registered |
| Numbering.StepNumbered | native/cerious-exchange-cpp/src/DeterministicExchange.hpp:429-489 | every command numbers its reports in increasing order, above the old sequence and up to the new one |
| Numbering.RunNumbered | native/cerious-exchange-cpp/src/DeterministicExchange.hpp:429-489 | over any run, no two reports share a number, and later reports have higher ones |
| ReportLog.ConsistentLogConserves | native/cerious-exchange-cpp/src/DeterministicExchange.hpp:467-489 | in a log whose reports add up, what is held and accepted is what is filled, withdrawn or held afterwards |
| ReportLog.StepReplays | native/cerious-exchange-cpp/src/DeterministicExchange.hpp:240-375 | reading a command's reports takes the working set before it to the working set after it, and every report adds up |
| ReportLog.TracksIsUnique | native/cerious-exchange-cpp/src/DeterministicExchange.hpp:587-620 | the working set is determined by the state: a reader tracks it if and only if it equals the registry's id-to-remaining map |
| ReportLog.RunReplays | native/cerious-exchange-cpp/src/DeterministicExchange.hpp:240-375 | the report log of any run between resets explains its final working set |
| ReportLog.RunConserves | native/cerious-exchange-cpp/src/DeterministicExchange.hpp:240-375 | for every order id, over any run between resets: accepted is filled plus withdrawn plus still resting |
| Working.SortByKeySorts | native/cerious-exchange-cpp/src/DeterministicExchange.hpp:397-401 | sorting by symbol, time and sequence permutes the orders into key order |
| Working.KeyLessWeakOrder | native/cerious-exchange-cpp/src/DeterministicExchange.hpp:397-401 | the comparison is a strict weak order, as the sort demands |
| Working.SortedBySymbolTimeSequence | native/cerious-exchange-cpp/src/DeterministicExchange.hpp:397-401 | in key order symbols follow one another in text order, within a symbol times do, and within a time sequences |
| Restorer.RestoreWorkingOrders | native/cerious-exchange-cpp/src/server.cpp:760-787 | the restore loop submits the saved orders one by one to the exchange |
| Restorer.RestartExchange | native/cerious-exchange-cpp/src/DeterministicExchange.hpp:391-403 | collecting the working orders of one exchange and restoring them into a new one brings every level back, and every queue if and only if times follow the queues |
| Restart.RestartRebuilds | native/cerious-exchange-cpp/src/server.cpp:760-787 | no resubmitted order fills or is refused, and every queue comes back in its order with its quantities if and only if times follow the queues |
| Restart.RestartKeepsLevels | native/cerious-exchange-cpp/src/server.cpp:760-787 | whatever the times, every level comes back with its quantity and its number of orders |
| Restart.EarlierTimeOvertakes | native/cerious-exchange-cpp/src/DeterministicExchange.hpp:397-401 | two bids at one price, the second with an earlier time, reach a state whose times do not follow its queue |
| ClientBook.ApplyGatewayEventPacket | apps/terminal/src/hooks/useGatewayEventBook.ts:64-87 | a packet updates both sides key by key and bounds them; every level it shows is one of the best of the updated side |
| ClientBook.DeltaSetsOneLevel | apps/terminal/src/hooks/useGatewayEventBook.ts:69-82 | a delta changes one price of one side only: it shows the delta's totals, or nothing if the delta deletes or either total is not positive |
| ClientBook.BoundKeepsBest | apps/terminal/src/hooks/useGatewayEventBook.ts:52-62 | bounding keeps, unchanged, exactly the levels with fewer than the bound better ones |
| ClientBook.BoundKeepsSmall | apps/terminal/src/hooks/useGatewayEventBook.ts:52-62 | a side within the bound is left alone |
| DeltaReplay.ShowsIsAggregate | native/cerious-exchange-cpp/src/DeterministicExchange.hpp:491-504 | a level map that shows every price as the side has it is the side's aggregate, and only that |
| DeltaReplay.StepDelivers | native/cerious-exchange-cpp/src/DeterministicExchange.hpp:506-670 | between resets, the deltas of a command take the aggregate of every book to the next one |
| DeltaReplay.TerminalIsExact | apps/terminal/src/hooks/useGatewayEventBook.ts:64-113 | while no side outgrows the bound, folding the packets of any run gives the exchange's price-to-quantity-and-count map |
| DeltaReplay.ShownLevelsAreExact | apps/terminal/src/hooks/useGatewayEventBook.ts:64-113 | whatever the bound cuts, every level still shown is exact |
| Ledger.FillAddsItsMove | native/cerious-exchange-cpp/src/server.cpp:606-642 | through the add, reduce, close and flip branches, a fill changes the total at any mark by its own move to that mark, and the quantities by its signed quantity |
| Ledger.AverageCostOfFill | native/cerious-exchange-cpp/src/server.cpp:606-631 | a fill of the open side realizes nothing and adds its cost to the average; a smaller one of the other side keeps the average and realizes its move on the contracts it closes; a larger one realizes the whole position and opens the rest at its own price |
| Ledger.OwnProduct | native/cerious-exchange-cpp/src/server.cpp:519-523 | every symbol is valued by its own product, an unknown one by quarters worth one |
| Ledger.CashFlowIdentity | native/cerious-exchange-cpp/src/server.cpp:606-642 | after any fills, the position is the net of the fills and the total at any mark is the sum of their moves to it |
| FifoLots.ImportRow | native/gateway-cpp/src/main.cpp:4015-4030 | the lot loop closes opposite lots from the front and keeps what is left as a new lot, as the recursive account of it says |
| FifoLots.FifoIdentity | native/gateway-cpp/src/main.cpp:3986-4034 | lots stay on one side, sum to the net of the fills, and satisfy the same cash-flow identity |
| FifoLots.FifoAgreesWithAverageCost | native/gateway-cpp/src/main.cpp:3986-4034 | on any fills and at every mark, FIFO lots and the average-cost ledger hold the same position and have made the same money |
| FifoUnits.FirstInFirstOut | native/gateway-cpp/src/main.cpp:4015-4030 | contract by contract: a fill of the open side joins the back of the queue; one of the other side removes the oldest contracts, realizes the sum of their price moves, and opens with what is left of it |
| FifoUnits.LotsAreTheQueue | native/gateway-cpp/src/main.cpp:4015-4030 | over any fills the lots hold the contracts of a first-in-first-out queue fed with the fills one contract at a time |
| Server.ExchangeServerState.UpdateMark | native/cerious-exchange-cpp/src/server.cpp:565-580 | last, else the mid, else bid, else ask becomes the mark; only that symbol's position is marked anew |
| Server.MarkIsTheMarket | native/cerious-exchange-cpp/src/server.cpp:565-572 | the mark is the last trade, else the middle of the quote, else its only side, and there is none if the tick has no price |
| Server.ExchangeServerState.UpdatePosition | native/cerious-exchange-cpp/src/server.cpp:606-638 | one position takes the fill and is marked, the others are left alone, and every position stays the account of its own fills |
| Server.ExchangeServerState.RecordFill | native/cerious-exchange-cpp/src/server.cpp:589-604 | a fill, with the id made of its sequence, its order, time and metadata, joins history and position while the kept list holds its last 5000 |
| Server.RecordedFill | native/cerious-exchange-cpp/src/server.cpp:582-598 | a report that fills adds one fill, of its order's side, quantity and execution price in the product's own ticks, named by its sequence; any other report adds none |
| Server.ExchangeServerState.ApplyBatch | native/cerious-exchange-cpp/src/server.cpp:582-587 | exactly the reports with a positive fill are recorded, in order |
| Server.ExchangeServerState.LoadFills | native/cerious-exchange-cpp/src/server.cpp:789-815 | loading replays exactly the saved fills that name a symbol and a quantity, and names those that have lost their id by their place |
| Server.LoadedFill | native/cerious-exchange-cpp/src/server.cpp:812-815 | a saved fill is loaded unchanged, or with an id made of its place among those loaded if it has none; a fill without symbol or quantity is not loaded |
| Server.RestartedPosition | native/cerious-exchange-cpp/src/server.cpp:589-604 | a ledger rebuilt from the kept fills has the old quantity less the net of the dropped fills and, at every mark, the old total less what the dropped fills have made there; so each survives if and only if that is zero, and all of the position if nothing was dropped |
| Server.LoadableKeeps | native/cerious-exchange-cpp/src/server.cpp:812-815 | loading loses no fill of a named symbol |
| Server.Restart | native/cerious-exchange-cpp/src/server.cpp:789-815 | a server restarted from another's kept fills is valid, has them all, and has a symbol's quantity if and only if its dropped fills net to zero |
| Server.OneFillTooMany | native/cerious-exchange-cpp/src/server.cpp:599-602 | after 5001 buys the server holds 5001 contracts, and 5000 when it is rebuilt from its fills |
| Neutral.InternalTradesAreNeutral | native/cerious-exchange-cpp/src/server.cpp:582-638 | submitting, cancelling and replacing move neither a symbol's net position nor its total at any fixed mark |
| Neutral.ServerStaysNeutral | native/cerious-exchange-cpp/src/server.cpp:582-638 | the same for the server's books: recording the batch of a command other than market data leaves each symbol's quantity and total at any mark |
| Session.SendOrder | native/cerious-exchange-cpp/src/server.cpp:377-382 | the batch of a submitted order goes through the books of account, and every symbol's quantity and total at every mark stand as before |
| Session.CancelOrder | native/cerious-exchange-cpp/src/server.cpp:384-393 | the same for a cancel |
| Session.ReplaceOrder | native/cerious-exchange-cpp/src/server.cpp:395-405 | the same for a replace |
| Session.ApplyMarket | native/cerious-exchange-cpp/src/server.cpp:407-414 | a tick marks its symbol at last, mid, bid or ask and trades; every symbol's quantity moves by the net of the tick's fills and its total at any mark by what they have made there, and a marked position shows its total at its mark |
| Session.TickMarkIs | native/cerious-exchange-cpp/src/server.cpp:407-414 | a tick of a symbol marks it at last, else mid, else the only side, in the product's own ticks |
| Neutral.RunPosition | native/cerious-exchange-cpp/src/server.cpp:582-638 | over any run, resets included, a symbol's position is the net of its fills against market data, and its total at any mark is what those fills alone have made there |
| FixBuilder.FixMessageBuilder.Add | native/fix-engine-cpp/src/fix_message.hpp:225-232 | a field is printed behind the body, its value cut at the first NUL; if it does not fit, the buffer ends in its beginning and a NUL, and the length counts all of it |
| FixBuilder.FixMessageBuilder.AddInt | native/fix-engine-cpp/src/fix_message.hpp:239-243 | the same for an integer, whose decimal is never cut |
| FixBuilder.FixMessageBuilder.Finalize | native/fix-engine-cpp/src/fix_message.hpp:253-297 | the text built in the buffers is prologue, header, user fields and trailer, with the length and the sum of what was printed |
| FixBuilder.FixMessageBuilder.Checksum | native/fix-engine-cpp/src/fix_message.hpp:285-289 | the loop sums the bytes written so far, modulo 256 |
| FixParser.Find | native/fix-engine-cpp/src/fix_message.hpp:368-373 | the first field with the tag, or none |
| FixParser.ReadInt | native/fix-engine-cpp/src/fix_message.hpp:323-334 | the loop reads an optional sign and the digits up to the first other character |
| FixParser.AsIntStops | native/fix-engine-cpp/src/fix_message.hpp:323-334 | reading a printed integer gives it back, sign included, whatever follows its digits |
| FixParser.ParseFixMessage | native/fix-engine-cpp/src/fix_message.hpp:403-489 | the one-pass loop returns what the field-by-field scan of the text returns, errors included |
| FixCodec.RoundTrip | native/fix-engine-cpp/src/fix_message.hpp:225-489 | the parse of a built message is valid with its type and sequence number; all fields come back in order if and only if there are at most 56 user fields, otherwise the first 64 |
| FixCodec.OneFieldTooMany | native/fix-engine-cpp/src/fix_message.hpp:349-489 | 57 short fields fit the builder's buffers, and the parse of their message is valid without all of them |
| FixCodec.BodyLengthCounts | native/fix-engine-cpp/src/fix_message.hpp:276-283 | BodyLength is the number of bytes between its field and the checksum field, as the FIX 4.4 specification, Volume 2 (Session Protocol), defines BodyLength (tag 9) in its standard message header |
| FixWire.MessageOnTheWire | native/fix-engine-cpp/src/fix_message.hpp:253-297 | the text of a message: version, length of the body, type under 35, sender under 49, target under 56, sequence number under 34, time under 52, the user fields, and the byte sum modulo 256 in three digits |
| FixWire.NamesComeBack | native/fix-engine-cpp/src/fix_message.hpp:253-297 | sender, target, type, sequence number and time of a built message are each found under their own tag, however many fields follow |
| FixWire.PlainFieldsParse | native/fix-engine-cpp/src/fix_message.hpp:403-489 | fields without a checksum all come back and are valid exactly if there is a BeginString and a message type |
| FixCodec.ChecksumChecked | native/fix-engine-cpp/src/fix_message.hpp:468-475 | a mismatch is reported exactly if the checksum is reached and differs from the sum of the bytes before it |
| FixCodec.DamagedByte | native/fix-engine-cpp/src/fix_message.hpp:443-475 | one changed value byte before the checksum is reported if and only if there are at most 56 user fields |
| FixCodec.DamagedChecksum | native/fix-engine-cpp/src/fix_message.hpp:434-475 | one changed checksum digit is reported if and only if there are at most 56 user fields |
| FixFramer.FixTcpClient.ExtractMessages | native/fix-engine-cpp/src/fix_tcp.hpp:192-228 | the loop delivers every complete message and erases it from the front of the buffer |
| FixFramer.FixTcpClient.Poll | native/fix-engine-cpp/src/fix_tcp.hpp:171-176 | received bytes join the buffer and are framed with what was left |
| FixFramer.FixTcpClient.PollAll | native/fix-engine-cpp/src/fix_tcp.hpp:160-176 | polling chunk by chunk delivers and leaves what one read of the whole stream would |
| FixFramer.ExtractConserves | native/fix-engine-cpp/src/fix_tcp.hpp:192-228 | messages and leftover concatenate to the input, and nothing complete is left over |
| FixFramer.FrameEndIs | native/fix-engine-cpp/src/fix_tcp.hpp:192-228 | a first message ends exactly behind the first delimiter that follows the first checksum field, which stands at the front or behind a delimiter |
| FixFramer.ExtractAppend | native/fix-engine-cpp/src/fix_tcp.hpp:192-228 | framing what is left together with new bytes is framing everything at once |
| FixFramer.ChunkingDoesNotMatter | native/fix-engine-cpp/src/fix_tcp.hpp:171-228 | however a stream is cut, the result is that of one big read |
| FixFramer.BuiltStream | native/fix-engine-cpp/src/fix_tcp.hpp:192-228 | a stream of built messages comes out as exactly those messages |
| FixFramer.BuiltParses | native/fix-engine-cpp/src/fix_message.hpp:403-489 | every message the builder makes parses as valid |
| FixFramer.BuiltStreamInChunks | native/fix-engine-cpp/src/fix_tcp.hpp:171-228 | however the bytes of built messages arrive, exactly those messages are delivered, each parsing as valid, and nothing is left |
| Bars.AggregateBars | native/gateway-cpp/src/main.cpp:2279-2307 | the loop over the sorted bars returns the buckets of the series, cut to the last ones |
| Bars.BucketsGroup | native/gateway-cpp/src/main.cpp:2287-2302 | a sorted series falls into consecutive groups of one bucket each; each output bar has the group's first open, highest high, lowest low, last close and total volume, and times strictly increase |
| Bars.BucketIsAligned | native/gateway-cpp/src/main.cpp:2289 | a bucket starts on a multiple of its width, no later than the times in it and less than a width before them |
| Bars.LatestBarsAreKept | native/gateway-cpp/src/main.cpp:2303-2305 | the cut keeps the latest buckets, as many as the limit allows; every bucket it drops is earlier than all it keeps |
| Bars.BucketsKeepVolume | native/gateway-cpp/src/main.cpp:2287-2302 | no volume is lost |
| Bars.AggregationComposes | native/gateway-cpp/src/main.cpp:2279-2307 | widening by a and then by a times b is widening by a times b at once, if the first cut takes nothing away |
| Regression.CalculateRegressionStudy | native/gateway-cpp/src/main.cpp:2686-2764 | too small a lookback, too few bars, or a close that is not finite are refused; otherwise the study is the fit of the last closes, its value at the last one, the root of the mean squared residual, and bands at the clamped number of roots on either side |
| Regression.FitLine | native/gateway-cpp/src/main.cpp:2727-2752 | the accumulator loops compute the fit from the closed sums, unless a close is not finite |
| Regression.DenominatorPositive | native/gateway-cpp/src/main.cpp:2743-2751 | the denominator is n(n^2-1)/12, positive from two samples on |
| Regression.NormalEquations | native/gateway-cpp/src/main.cpp:2743-2752 | the residuals of the fitted line sum to zero and are orthogonal to the index |
| Regression.FitIsLeastSquares | native/gateway-cpp/src/main.cpp:2743-2760 | from two samples on, every other real line has a larger sum of squared residuals |
| Covers.CoverDesk.RememberAlgoCoverPolicy | native/gateway-cpp/src/main.cpp:4293-4315 | only algo entries with an id and positive ticks are remembered, with a quantity of at least one |
| Covers.CoverDesk.ProcessExchangeFillEvents | native/gateway-cpp/src/main.cpp:4317-4407 | one document's events are handled in order, each moving the processed keys, the covered quantities and the orders to send as its step says |
| Covers.CoverDesk.ProcessFill | native/gateway-cpp/src/main.cpp:4319-4407 | one event passes the source's checks in the source's order, and its cover has the source's id, parent, side, price, quantity and trigger |
| Covers.CoverDesk.ResetSession | native/gateway-cpp/src/main.cpp:5518-5524 | policies, keys and quantities are forgotten |
| Covers.CoverTotal | native/gateway-cpp/src/main.cpp:4317-4375 | over any history, the covers of an entry add up to the lesser of its policy quantity and its distinct fills, but never to less than its largest fill |
| Covers.CoveredExactlyOnce | native/gateway-cpp/src/main.cpp:4317-4375 | the covers add up to the lesser of policy quantity and distinct fills if and only if no single fill exceeds the policy quantity |
| Covers.LargeFillOvershoots | native/gateway-cpp/src/main.cpp:4364-4374 | under a policy of one contract a fill of two is covered by two |
| Covers.RememberedGoverns | native/gateway-cpp/src/main.cpp:4293-4341 | a policy remembered before the first fill and not changed governs every fill |
| Covers.OrderDoesNotMatter | native/gateway-cpp/src/main.cpp:4317-4375 | two histories that report the same keys of an entry, printed in whatever form, in any order and any number of times, are covered by the same quantity; reports under one key need only agree that they fill the entry, and on the size |
| Covers.HandleAppend | native/gateway-cpp/src/main.cpp:4317-4413 | documents handled one after the other leave and send what one long document would |
| Covers.CoverIdsCollide | native/gateway-cpp/src/main.cpp:4385 | without timestamps of their own, two covers of one parent share an id exactly if the clock did not move |
| Responses.PrintedTwice | native/cerious-exchange-cpp/src/DeterministicExchange.hpp:756-808 | whichever of its two forms a filling report is printed in, it has one key, one size, and is or is not the entry's fill |
| Responses.KeyNamesReport | native/gateway-cpp/src/main.cpp:4326-4332 | a key determines the order id and the sequence of the report it was made from |
| Responses.ResponsesAgree | native/gateway-cpp/src/main.cpp:4326-4336 | in any history printed from a log with distinct numbers, reports under one key agree |
| Responses.LogIsCovered | native/gateway-cpp/src/main.cpp:4317-4375 | a desk that is told every fill of an entry, in whatever form, order and repetition, covers the lesser of policy and filled quantity if and only if no fill exceeds the policy |
| CoverRuns.DocumentsTell | native/cerious-exchange-cpp/src/DeterministicExchange.hpp:749-809 | the responses of a run that reach the desk print its reports and tell every fill in them |
| CoverRuns.FilledIfReached | native/gateway-cpp/src/main.cpp:4410-4415 | over any run, something of an order is filled out of the desk's hearing if and only if an unheard request of the run reaches it |
| CoverRuns.EntryIsCovered | native/gateway-cpp/src/main.cpp:4317-4375 | over any run between resets in which an algo's entry is forwarded: if no more is accepted of it than its policy allows, every contract the desk hears filled is covered once, and every filled contract if and only if no unheard request reaches the entry |
| CoverRuns.EveryFillIsHeard | native/gateway-cpp/src/main.cpp:5489-5535 | in a run whose only unheard requests are cancels and resets none of them reaches an order |
| Gateway.ExecutionGateway.PlaceOrder | native/gateway-cpp/src/main.cpp:5463-5487 | an order is shown to the desk, posted and its response handed over; afterwards exchange and desk are as after the order and the covers that answer it |
| Gateway.ExecutionGateway.PublishMarket | native/gateway-cpp/src/main.cpp:1638-1657 | the same for market data |
| Gateway.ExecutionGateway.SendCovers | native/gateway-cpp/src/main.cpp:4410-4415 | the covers are submitted one by one, in order, and nothing else is made of the responses |
| Gateway.OwnOrdersAreCovers | native/gateway-cpp/src/main.cpp:4317-4416 | whatever calls come from outside, the orders the gateway posts of its own are exactly the covers of what the desk gets to see, each once and in order |
| GatewayRuns.PacketIsSilent | native/cerious-exchange-cpp/src/DeterministicExchange.hpp:749-833 | the event packet of a response makes the desk do nothing that its list of reports has not made it do |
| GatewayRuns.OneResponseOneId | native/gateway-cpp/src/main.cpp:4385 | all covers of one entry that answer one response carry one id |
| GatewayRuns.SecondCoverIsRefused | native/cerious-exchange-cpp/src/DeterministicExchange.hpp:244-263 | of two covers under one id the second is refused as a duplicate if and only if the first is registered then: it was before, or it is accepted and the other side cannot fill it |
| GatewayRuns.SecondCoverIsLost | native/gateway-cpp/src/main.cpp:4385 | an entry buys from two offers, and the desk answers with two covers under one id, of which the exchange refuses the second |
| GatewayRuns.CoverMeetsItsEntry | native/gateway-cpp/src/main.cpp:4410-4415 | an entry buys one contract and bids for another, and the cover the desk sends meets that bid: two contracts are filled, the desk hears of one and covers one |
| Covers.CoverIsTicksAway | native/gateway-cpp/src/main.cpp:4377-4384 | a fill on the tick grid is covered exactly the policy's whole number of ticks away, above a buy and below a sell |
| CoverSides.CoverOpposesFill | native/gateway-cpp/src/main.cpp:4377-4395 | in whichever form a filling report is printed, its cover is a bid if the order sold and an offer if it bought, in its symbol and for no more than was filled, named by the entry and the gateway's clock |
| CoverSides.CoverIsTheOtherWay | native/gateway-cpp/src/main.cpp:4377-4384 | an on-grid sell is covered by a bid below its price, an on-grid buy by an offer above it, the policy's ticks away |
| CoverSides.CommandOpposesFill | native/gateway-cpp/src/main.cpp:4386-4395 | read as a command, a cover is a limit order on the side opposite to the fill |
| CoverSides.OwnOrdersOpposeFills | native/gateway-cpp/src/main.cpp:4317-4416 | whatever calls come from outside, every order the gateway posts of its own is on the other side of a fill of an algo's entry that the desk has heard of, in its symbol and for no more than that fill |
| CoverSides.FillKinds | native/gateway-cpp/src/main.cpp:4322-4325 | an event is taken for a fill exactly if it names an order, has a quantity and one of four words |
| CoverSides.OnlyEntriesAreRemembered | native/gateway-cpp/src/main.cpp:4293-4315 | exactly an algo's entry with an id and positive ticks is remembered, with the ticks and the rounded quantity it names; nothing else of the desk changes |
| CoverSides.EventSpeaksForItself | native/gateway-cpp/src/main.cpp:4334-4361 | without a remembered policy the event's own ticks and its original quantity, else its size, govern its cover |
| CoverSides.StampKnowsTheFill | native/gateway-cpp/src/main.cpp:4326-4336 | an event with a timestamp of its own is handled once, whatever else says when it happened |
| CoverSides.RoundedIsNearest | native/gateway-cpp/src/main.cpp:4348 | rounding goes to the nearest integer, from halfway away from zero |
| SessionText.Escape | native/cerious-exchange-cpp/src/DeterministicExchange.hpp:686-707 | the loop writes each character's escape |
| JsonText.WrittenDenotes | native/cerious-exchange-cpp/src/DeterministicExchange.hpp:686-707 | a reader that follows section 7 of RFC 8259 reads every written string back |
| JsonText.WrittenIsAllowed | native/cerious-exchange-cpp/src/DeterministicExchange.hpp:686-707 | no control character is left in what is written |
| SessionText.DecodeString | native/cerious-exchange-cpp/src/server.cpp:47-66 | the loop reads up to the closing quote, and an empty result becomes the fallback |
| SessionText.DecodeWritten | native/cerious-exchange-cpp/src/server.cpp:47-66 | reading any written string, whatever follows it, gives the string as far as the reader knows the writer's escapes |
| SessionText.ReadsBack | native/cerious-exchange-cpp/src/server.cpp:47-66 | a written string is read back unchanged if and only if its only control characters are newline, return and tab, and it is not empty where a fallback is given |
| SessionText.BackspaceBecomesB | native/cerious-exchange-cpp/src/server.cpp:53-61 | a backspace is read back as the letter b |
| SessionText.WriteArray | native/cerious-exchange-cpp/src/server.cpp:708-718 | the loop writes the objects between brackets, separated by commas |
| SessionText.JsonObjectArray | native/cerious-exchange-cpp/src/server.cpp:114-147 | the flag-and-index loop returns the top-level objects that the scan with a collected text returns |
| SessionText.SplitPrinted | native/cerious-exchange-cpp/src/server.cpp:114-147 | splitting a printed array gives back exactly its printed objects, whatever their strings contain |
| SessionText.MemberAt | native/cerious-exchange-cpp/src/server.cpp:84-110 | the scan from an opening bracket returns the text up to the bracket that closes it, or nothing |
| SessionText.ArrayIsEnclosed | native/cerious-exchange-cpp/src/server.cpp:84-110 | a printed array is cut out of the document whole, whatever follows it and whatever brackets its strings contain |

## Left out

- Prices of the book are ticks: rounding of off-grid prices, the tick-size of a product and non-finite ticks of market data are not modelled; a non-finite limit price is, as its own case.
- Quantities are unbounded integers: overflow of the 32-bit sums and of tag numbers is not modelled.
- Orders are values named by id: the shared pointers and list iterators of the registry, and the aliasing between them, are not modelled.
- Products are registered before the first command; registration and tick-size checks, and branches for a product or book that cannot be missing, are not modelled.
- The last market tick a book stores is not modelled.
- Order metadata is one opaque string that replace and restart copy.
- RestoreWorkingOrders: works on records; their prices in the session text are printed with default stream precision, and parsing the numbers back is not modelled.
- LoadFills: works on records, as the restore of orders does.
- DecodeString: starts behind the opening quote; the search for a key in an object's text is not modelled.
- CollectWorkingOrders: takes the registry's ids in any order before sorting, since the order of a hash map is not fixed.
- UpdateMark: session peak, low and drawdown sampling is not modelled.
- ImportRow: integer quantities and exact profit; reading CSV, the small epsilon and rounding to cents are not modelled.
- CalculateRegressionStudy: takes the bars as given and an exact square root; the cache is not modelled.
- AggregateBars: sorts bars of equal time stably, while the source leaves their order open.
- Finalize: header and body together must fit the buffer, and the header must leave room for its NUL; beyond that the source copies past the end of its buffers, which has no defined result.
- Add: starts at the latest at the end of the buffer; behind it the source prints outside, which has no defined result.
- RecordFill: reports of the exchange always carry a time; the clock reading for one that does not is not modelled.
- ParseFixMessage: display strings with a pipe as delimiter are parsed as in the source, but the round trip is stated for messages as built.
- ProcessExchangeFillEvents: takes the events as records; finding them in a document, upper and lower case, canonical symbols and the fixed texts of a cover are not modelled, and a cover counts as sent even if sending it fails, as in the source.
- EntryIsCovered: the text of a price may be any text without a bar, and metadata is read as tags by any function; how numbers are formatted is not modelled. One reading of the clock stands for those taken while one response is handled.
- OwnOrdersAreCovers: calls come one at a time, while the gateway's threads may mix them; `EntryIsCovered` does not need this, its requests may come in any order. How the exchange reads a cover's price and tags is given by two functions.
- ApplyMarket: the prices of a tick are whole ticks, as everywhere in the book.
- ApplyGatewayEventPacket: prices are integer keys; numbers that are not finite are absent values, and text keys are not modelled.
- HTTP routes, sockets, threads and locks, files, clocks, market-data feeds, the FIX session state and simulator, the journal, the order router, the Windows host and the React components are not part of this model: they add plumbing around the parts above.
