# Position tracker of the precision trading bot

A Dafny model of the core of the trading bot `PrecisionTradingBot` (bot.py): one
poll cycle `monitor_positions` and its helper `calculate_weighted_avg`.

Each cycle runs these steps:

- The bot fetches the open linear positions.
- It keeps those of positive size in an insertion-ordered dictionary keyed by
  symbol.
- It compares that dictionary with the snapshot stored by the last completed
  cycle, in three passes.
  - **Openings**, in key order (the order of each symbol's first positive
    entry in the fetched list): a symbol that was not stored gets a
    new-position notice.
  - **Modifications**, in key order: a stored symbol whose size grew gets an
    added notice; one whose size shrank gets a reduced notice.
  - **Closures**, over the set of stored symbols that are gone: each is reported
    as a reduction to 0.
- It replaces the stored snapshot with the new dictionary, but only when
  nothing raised.
- Any exception aborts the cycle.
  - The notices already sent stay sent.
  - The snapshot is kept.

The files:

- `positions.dfy` (module `Positions`):
  - positions and the dictionary, as an insertion-ordered `Dict`;
  - `Collect`, the dictionary comprehension that builds the snapshot.
- `weighted_avg.dfy` (module `WeightedAvg`): `calculate_weighted_avg` and its
  bounds.
- `transitions.dfy` (module `Transitions`):
  - the notices a cycle sends, as `Event` records holding the numbers the
    message templates receive;
  - each pass's steps (`PhaseSteps`) and the cycle's whole list of steps
    (`Plan`). A step is a notice to send, or the `ZeroDivisionError` raised
    while computing one;
  - what sending the steps produces when one send fails (`Execute`, `RunPasses`);
  - a per-symbol reference (`Classify`, `StepFor`) that the plan is proved
    against.
- `tracker.dfy` (module `Tracker`): the class `PrecisionTradingBot`.
  - Its fields are `positionHistory` and an `outbox` of the delivered notices.
  - `MonitorPositions` runs the three passes as three loop methods that append
    to the outbox.
  - Each method is proved against the functions of `Transitions`.

The model's parameters stand in for the source's outside effects:

- `fetched: Option<seq<Position>>` is the exchange's reply. `None` means the
  fetch raised.
- `failingSend: Option<nat>` names the send, numbered from 0 within the cycle,
  that raises. `None` means every send is delivered.
- The ghost out-parameter `order` of `MonitorPositions` and `ProcessClosures` is
  the order in which the closure pass visited the set of vanished symbols.
  A Python set's iteration order is not specified, so the contracts hold for
  every order.

## Notes on the code

- **Weighted average.** The added notice's new average is
  `calculate_weighted_avg([prev, pos])` (bot.py:125). It weights the current
  lot by its whole size: `(prev.size·prev.avg + cur.size·cur.avg) / (prev.size +
  cur.size)`. `WeightedAvg.TwoLotExample` works through one case: 1 unit at 100
  grown to 1.5 units at 110 gives (100 + 165) / 2.5 = 106. Weighting only the
  added 0.5 units would give (100 + 55) / 1.5 ≈ 103.33.
- **Unguarded division.** The PnL percentage of a reduction (bot.py:142) and of
  a closure (bot.py:162) divides by the stored cost basis with no guard. So a
  zero basis raises `ZeroDivisionError`. In the model that is a `Raise` step,
  and it aborts the cycle like any other exception (`Transitions.RaisesIff`).
- **Key order.** The openings and modifications passes visit the snapshot's
  keys in dict insertion order. A symbol therefore sits where its first
  positive-size entry appears in the fetched list (`Positions.CollectOrder`).

## Model

| member | source | states |
|---|---|---|
| Positions.Put | bot.py:97 | storing under a key changes only that entry; a new key goes to the end of the key order and an existing key keeps its place; a well-formed dict stays well formed |
| Positions.SideOf | bot.py:107 | the side a notice shows: index 1 is Buy, anything else Short; `Transitions.StepPayload` states that openings, additions and reductions take it from the current position (bot.py:129, bot.py:146) and closures from the stored one (bot.py:166) |
| Positions.Collect | bot.py:97 | the snapshot lists each stored symbol once, every stored position has a positive size and is stored under its own symbol (key order: `Positions.CollectOrder`) |
| Positions.CollectKeys | bot.py:97 | a symbol is stored exactly when some fetched entry for it has a positive size |
| Positions.CollectLastWins | bot.py:97 | a symbol fetched more than once keeps its last entry of positive size |
| Positions.FirstPositive | bot.py:97 | the index of a symbol's first positive-size entry in the fetched list: every earlier entry for it has size 0 or less; the value is the list's length when there is none |
| Positions.StoredIffFirstPositive | bot.py:97 | a symbol is stored exactly when it has a first positive-size entry |
| Positions.CollectOrder | bot.py:97 | the snapshot's keys come in the order of their first positive-size entries in the fetched list, the place where a dict first inserts a key; this is the order the openings and modifications passes visit them in |
| WeightedAvg.TotalSize | bot.py:88 | the sum of the sizes; `WeightedAvg.CalculateWeightedAvg` and `WeightedAvg.WeightedAvgBounds` state what the average built on it is |
| WeightedAvg.TotalCost | bot.py:91 | the sum of size times price, the dividend of the average; its bounds are those `WeightedAvg.WeightedAvgBounds` and `WeightedAvg.WeightedAvgUniform` state of the average |
| WeightedAvg.CalculateWeightedAvg | bot.py:86-91 | 0 when the sizes add up to 0; otherwise the result times the total size is the sum of size times price |
| WeightedAvg.WeightedAvgBounds | bot.py:86-91 | with non-negative sizes and a positive total, the average lies within every lower and upper bound of the prices |
| WeightedAvg.WeightedAvgUniform | bot.py:86-91 | when every price is p and the total size is not 0, the average is p |
| WeightedAvg.TwoLotAverage | bot.py:125 | the new average of a grown position weights the stored and the current lot by their whole sizes and lies between their two prices |
| WeightedAvg.TwoLotExample | bot.py:125 | 1 unit at 100 grown to 1.5 units at 110 reports a new average of 106 |
| Transitions.PnlPercent | bot.py:142 | the division raises exactly when the cost basis (size times average price) is 0; otherwise the percentage times the basis is 100 times the PnL |
| Transitions.OpenedStep | bot.py:102-112 | the new-position notice names the symbol, reports an opening, carries the current size and entry price, and its notional is size times entry price |
| Transitions.AddedStep | bot.py:124-135 | the added notice names the symbol and reports an addition; the current size is the stored size plus the added size, the added size is positive when the size grew, and the notional is the added size at the current price |
| Transitions.ReducedStep | bot.py:140-155 | the reduced notice names the symbol; it raises exactly when the stored cost basis is 0; otherwise the remaining and the reduced size add up to the stored size, the notional is the reduced size at the stored price, and the percentage times the stored basis is 100 times the PnL; it reports a reduction when some size remains |
| Transitions.ClosedStep | bot.py:160-175 | the closure notice names the symbol and reports a closure; it raises exactly when the stored cost basis is 0; otherwise the remaining size is 0, the reduced size is the stored size, and the percentage times the stored basis is 100 times the PnL |
| Transitions.PhaseStep | bot.py:100-176 | a pass takes at most one step when it visits a symbol, and that step names the visited symbol; which step is stated by `Transitions.PhaseStepReference` |
| Transitions.PhaseSteps | bot.py:100-176 | one pass over a list of symbols, in the list's order; `Transitions.PhaseStepsReference` states which symbols get a step and which step, and `Transitions.PhaseStepsAppend` that a pass over two lists is the two passes one after the other |
| Transitions.Plan | bot.py:99-176 | the cycle's whole list of steps: `Transitions.PlanIsReference` states that each symbol that changed gets exactly its reference step, `Transitions.PlanOrdered` the pass order, and `Transitions.QuietIff` when it is empty |
| Transitions.Execute | bot.py:104-181 | when the run reaches the end it has sent one notice per step; `Transitions.ExecuteSendsSteps` and `Transitions.ExecuteCompletes` state what an aborted run sent and when a run completes |
| Transitions.RunPasses | bot.py:99-176 | the three passes run one after another: when the last one completed, one notice was sent per step of the cycle; `Transitions.CycleOfPasses` states that this is running the whole list of steps |
| Transitions.StepForKind | bot.py:100-176 | the step taken for a symbol carries that symbol and reports the symbol's transition; a closure is a reduction to 0 |
| Transitions.StepPayload | bot.py:102-175 | the numbers of each notice: an opening reports the current lot and its notional; an addition has a positive added size with notional at the current price and the two-lot average; a reduction has a positive reduced size with notional at the stored price; a closure has a remaining size of 0, the stored size as its reduced size, and side and leverage from the stored position; the PnL percentage is 100 times the PnL per stored cost basis |
| Transitions.StepForRaises | bot.py:138-162 | the step for a symbol raises exactly when the symbol was reduced or closed and its stored cost basis is 0 |
| Transitions.ZeroPriceRaises | bot.py:142 | when every stored position is open, which the bot's `Valid` invariant keeps, a step raises exactly when the symbol was reduced or closed and its stored average price, a factor of the divisor at bot.py:142 and bot.py:162, is 0 |
| Transitions.PhaseStepReference | bot.py:99-176 | each pass takes a step for a symbol exactly when the symbol's transition belongs to that pass, and then the reference step |
| Transitions.PhaseStepsReference | bot.py:99-176 | a pass over distinct symbols takes at most one step per symbol, for exactly the symbols whose transition belongs to it, each the reference step |
| Transitions.PlanIsReference | bot.py:99-176 | a cycle takes exactly one step for each symbol that was opened, added to, reduced or closed, and none for any other; each is the reference step for its transition |
| Transitions.QuietIff | bot.py:116-140 | a cycle takes no step exactly when the same symbols are stored and current with the same sizes; a changed price alone reports nothing |
| Transitions.PlanOrdered | bot.py:99-176 | all openings come before all size changes, and those before all closures |
| Transitions.RaisesIff | bot.py:138-176 | a cycle contains a raising step exactly when some reduced or closed symbol has a stored cost basis of 0 |
| Transitions.SecondPollIsQuiet | bot.py:97-178 | polling the same list again after a completed cycle sends nothing and completes, whatever send would fail |
| Transitions.FirstPollOpens | bot.py:99-113 | with nothing stored, the openings pass reports every current position as new, in key order (see `Positions.CollectOrder`) |
| Transitions.NothingToModify | bot.py:115-117 | with nothing stored, the modifications pass takes no step |
| Transitions.FirstPoll | bot.py:99-176 | with nothing stored, a cycle takes one opening step per current position and nothing else, and completes when no send fails |
| Transitions.ExecuteSendsSteps | bot.py:99-176 | what a cycle sent is the notices of a prefix of its steps, in order |
| Transitions.ExecuteCompletes | bot.py:94-181 | a cycle runs to the end exactly when no step raises and the failing send, if any, lies outside it |
| Transitions.ExecuteAppend | bot.py:99-176 | sending two lists of steps one after the other is sending the first and, when it ran to the end, then the second with its sends numbered after the first's |
| Transitions.CycleOfPasses | bot.py:99-176 | running the three passes one after another, each only when the previous one ran to the end, is sending the cycle's whole list of steps |
| Transitions.SentFollowsReference | bot.py:99-176 | the notices a cycle sends name each symbol at most once, come openings first, then size changes, then closures, and each is the reference notice for its symbol's transition |
| Transitions.SomeEnumeration | bot.py:159 | every finite set of vanished symbols can be listed once each, in some order |
| Tracker.PrecisionTradingBot.constructor | bot.py:16 | a new bot stores no positions and has sent nothing |
| Tracker.PrecisionTradingBot.SendNotification | bot.py:26-34 | the send numbered `failingSend` raises and delivers nothing; every other send appends its notice to the outbox |
| Tracker.PrecisionTradingBot.MonitorPositions | bot.py:93-181 | a failed fetch changes nothing; otherwise the outbox grows by what the three passes sent, and the stored snapshot becomes the collected positions exactly when the cycle completed, else it is kept; every stored position stays open |
| Tracker.PrecisionTradingBot.ProcessOpenings | bot.py:99-113 | the outbox grows by what sending the openings pass's steps produces, and the method completes exactly when that pass does |
| Tracker.PrecisionTradingBot.OpeningNotice | bot.py:102-112 | the notice is the openings pass's step for the symbol |
| Tracker.PrecisionTradingBot.ProcessModifications | bot.py:115-156 | the outbox grows by what sending the modifications pass's steps produces, and the method completes exactly when that pass does |
| Tracker.PrecisionTradingBot.ModificationNotice | bot.py:117-156 | there is a notice exactly when the size changed, and it is the modifications pass's step for the symbol: an added notice, a reduced notice, or the raise of a zero cost basis |
| Tracker.PrecisionTradingBot.ProcessClosures | bot.py:158-176 | the visiting order lists each vanished symbol once; the outbox grows by what sending the closure steps in that order produces, and the method completes exactly when the pass does |
| Tracker.PrecisionTradingBot.ClosureNotice | bot.py:160-176 | the step is the closures pass's step for the symbol |

## Left out

- The HTTP session and `get_positions` (bot.py:11-15, bot.py:96) are not modelled. The exchange's reply is the parameter `fetched`, and a failed fetch is `None`. A reply without `result` or `list` is the empty list.
- The Telegram call inside `send_notification` (bot.py:26-34) is not modelled: its chat id, topic id, parse mode and network transport. Delivery appends to `outbox`, and a failure is the send numbered `failingSend`.
- The message templates `generate_*_message` and `_format_number` (bot.py:36-84) are display formatting with emoji, HTML and the clock, so they are not modelled. The `Event` records carry the numbers the templates are given.
- `float()` parsing of the exchange's string fields is not modelled. Fields arrive as numbers, so a malformed field, which would raise `ValueError`, and a missing key, which would raise `KeyError`, are not modelled.
- Floating point is modelled by `real`. IEEE rounding is not modelled.
- The `print` in the `except` branch (bot.py:180-181) is logging and is left out. The abort it follows is modelled.
- The `run` loop, `asyncio.sleep` and the `__main__` entry point (bot.py:183-191) are driver code and are left out. So is the configuration read through `os.getenv`.
- Concurrency is left out. The coroutine runs each poll to its end before the next, so the model treats one cycle as one sequential method.
