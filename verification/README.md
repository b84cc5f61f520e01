# Verified models of an SST element library

The repository is a collection of simulator components. This project models its most intricate
ones in Dafny and proves what their code promises over all inputs and all runs.

**The cramSim DRAM controller** is the main subject. Transactions are hashed to a bank and a row,
queued and picked under a dependency rule, turned into PRE, ACT, READ and WRITE commands by a page
policy, queued per bank, and issued against bank state machines whose earliest-issue cycles spread
over bank group, rank and channel, while refresh closes rows and re-inserts ACTs. The device
returns column commands by number, and the controller finds the transaction to answer in its
response queue. One step of the model is one clock cycle of the controller with any batch of
arriving transactions and any issued commands returning, with quick response on or off.

**Independent subjects** are Ariel's two memory managers and its split accesses, Balar's DMA
engine, the Palacharla prefetch table, the hasher's address map, and the cycle floors of the
attention sweep.

## How it is organised

Each stateful component appears twice: as a value with functions (`BankModel`, `DriverModel`,
`ControllerModel`, `Dma`, `MallocModel`) and as classes that update fields in loops (`BankInfos`,
`DeviceDrivers`, `Schedulers`, `Controllers`, `DmaRuns.DmaEngine`, `MallocManagers`, ...). Class
methods are proved to compute the functions; the theorems are about the functions.

| files | subject |
|---|---|
| `Dram`, `BankModel`, `DriverModel`, `ControllerModel` | the controller as a value, with the two tables of minimum command distances |
| `Spacing`, `Rows`, `Faw`, `DriverSafety`, `RefreshSafety`, `ControllerSafety` | one invariant, kept by every step, for distances, rows, activation window, per-bank order and flow control |
| `Hazards`, `WriteOrder`, `Choices`, `Quiet`, `CycleEvents`, `RefreshRuns`, `Monotone`, `Buses`, `DataBus`, `TwoReads`, `Runs` | arrival order of conflicts, the scheduler's choice, refresh, monotone cycles, the command and data buses, and the main theorems over runs |
| `TimingRules`, `BankTiming` | the distances said without the tables, and how soon a bank is ready again |
| `RefreshTurns`, `TurnRuns` | when refreshes are created and which bank each is for |
| `Openings`, `LostRefresh`, `OpeningRuns`, `RowTimers` | waiting commands find the row buffer they need, the run in which one does not, and when rows are closed |
| `Conservation`, `Progress`, `ProgressRuns`, `Departures` | no command and no transaction is lost, and none that may go is left behind |
| `Responses`, `Service`, `ServiceSafety`, `ServiceRuns`, `QuickHits` | the response queue, who is answered and when, and by whom early, over runs |
| `BankInfo`, `DeviceDriver`, `Schedulers`, `ReplyDesk`, `Controller` | the objects that update state in place |
| `Bits`, `AddressMap`, `AddressHasher`, `Wiring` | address map, bank numbers, hierarchy |
| `Dma`, `DmaRuns`, `DmaFrame`, `DmaReach`, `DmaPace` | the DMA engine, its runs, what they leave alone, how far chunks reach and how fast |
| `PagePools`, `Caches`, `MallocModel`, `MallocSteps`, `Translations`, `MallocCache`, `MallocManager`, `MallocRuns`, `SimpleManager`, `SplitAccess` | Ariel's memory managers and accesses |
| `Prefetch`, `Sweep` | the prefetch table, the attention floors |
| `Options`, `Sequences`, `Arithmetic` | shared vocabulary |

The command trace judges the controller: `Spacing.PairwiseSafe`, `Rows.RowSafe`, `Faw.FawSafe`,
`Faw.ActsApart`, `Buses.BusesKept`, `TimingRules.RulesHold`, `RefreshRuns.OnlyAfterRef`,
`RefreshTurns.RoundsAreWhole`, `DataBus.BusSafe` and `Hazards.ServedInOrder` mention only the events
of the trace (and, for the last, what each command number stands for), not the controller's own
bookkeeping.

What the models assume of their callers is what the code needs: nRCD, nCCD_L, nRP, nRFC of at
least 2 and no wrap-around in the spacing subtractions (`Dram.Params.Valid`); arrivals with rising
sequence numbers and a bank that depends on the address (`Hazards.InputOk`); over runs of the
malloc manager, allocations that are not empty and do not reach into live ones (`MallocRuns.Fair`,
shown exact by `MallocSteps.AllocatedExactly`); pages of at least 8 bytes and a translation cache
of at least one entry; for the DMA transfer, requests whose chunks come out even (`Dma.Even`, shown
exact by `DmaReach.LastChunkReaches`).

What turned out false of the code is stated as it is, with a run that shows it and the exact
condition: single-bank refresh clears a refresh that still waits when the next is created
(`TurnRuns.BankAfterBankExactly`, `OpeningRuns.ActsFindTheirBankClosedExactly`,
`OpeningRuns.RefreshIsLost`), the data-bus assertion (`Runs.DataBusExactly`), the order of writes
(`Runs.WriteOrderExactly`), uneven DMA transfers (`DmaReach.UnevenOverruns`) and page sizes that do
not divide (`Translations.AnswersStayExactly`).

Where code and comments disagree the model follows the code. First-ready scheduling without a row
hit takes the last ready entry, not the oldest. The DMA comment that requests complete in order is
not needed: the proofs allow any order.

## Model

| member | source | states |
|---|---|---|
| `Runs.CommandsKeepTheirDistance` | src/sst/elements/cramSim/c_BankInfo.cc:137-175 | In every state of every run, any two commands issued on a channel are at least as far apart as the same-bank, same-group, cross-group or cross-rank tables demand; the command trace is the only judge |
| `Runs.BankLifecycle` | src/sst/elements/cramSim/c_BankStateActive.cc:123-183 | In every run and for every bank: ACT to column command at least nRCD cycles, ACT to PRE at least nRAS, PRE to ACT at least nRP, REF to ACT at least nRFC |
| `Runs.EarliestIssueIsMonotone` | src/sst/elements/cramSim/c_BankInfo.cc:182-191 | Over any stretch of any run no bank's earliest-issue cycle of any command goes down |
| `Runs.CommandsMeetTheirRow` | src/sst/elements/cramSim/c_TxnConverter.cc:206-346 | Replaying the trace of any run, every column command finds its own row open and every ACT and REF finds no row open, also when a refresh closed the row in between |
| `Runs.FourActivateWindow` | src/sst/elements/cramSim/c_DeviceDriver.cc:593-596 | In every run no rank receives more than four ACTs in any nFAW consecutive cycles |
| `Runs.FlowControlSuffices` | src/sst/elements/cramSim/c_TxnConverter.cc:126-161 | In every cycle of every run, whatever arrives, all pushes of the converter succeed, its input is drained, and no command queue exceeds its size, so the free-entry count never underflows |
| `Runs.OrdinaryOnlyAfterRef` | src/sst/elements/cramSim/c_DeviceDriver.cc:398-420 | In every run, from a state in which a refresh of a rank is due or pending, with or without a precharge, an ordinary command reaches the rank only after a REF of the rank, and until that REF the refresh stays due or pending |
| `Runs.PendingIsQuiet` | src/sst/elements/cramSim/c_DeviceDriver.cc:574-579 | As long as a refresh of a rank is queued, every command added to the trace for that rank is one of a refresh |
| `Runs.RefreshGroupsAreWhole` | src/sst/elements/cramSim/c_DeviceDriver.cc:672-721 | In every cycle of every run a rank sends the first group of its refresh queue (created in that cycle when due) to exactly the listed banks with one cycle number, or none of it; the REF lists the rank's banks, or the one whose turn it is |
| `Runs.OneActPerCycle` | src/sst/elements/cramSim/c_DeviceDriver.cc:648-653 | In every run no rank receives two ACTs in one cycle, so the driver's assertion about it never fails |
| `Runs.HazardsAreServedInOrder` | src/sst/elements/cramSim/c_TxnScheduler.cc:184-223 | In every run: each column command carries the address, bank, row and direction of its transaction, no transaction gets two column commands, and conflicting transactions (same address; one read and one write under read-first with first-ready) reach the bank in arrival order |
| `Runs.OnlyArrivalsAreServed` | src/sst/elements/cramSim/c_Controller.cc:265-284 | Every command number stands for a transaction that arrived |
| `Runs.WriteOrderExactly` | src/sst/elements/cramSim/c_TxnScheduler.cc:200-213 | Writes to one address leave the scheduler in order in every run if and only if the scheduler is not both read-first and first-ready |
| `Runs.OvertakingRun` | src/sst/elements/cramSim/c_TxnScheduler.cc:200-213 | A run of one cycle in which, under read-first with first-ready, the younger of two writes to one address has left and the older still waits |
| `Runs.DataBusExactly` | src/sst/elements/cramSim/c_DeviceDriver.cc:631-646 | The driver's data-bus assertion, with its initial values, holds in every state of every run of every controller with the given timings if and only if min(nBL, max(nCCD_L, nCCD_S)) is at most nCCD_L and at most nRCD + 1 |
| `Runs.DataBusIsFree` | src/sst/elements/cramSim/c_DeviceDriver.cc:631-646 | With such timings no data command of any run fails the assertion against the last data command sent, or against the initial READ of cycle 0 |
| `Runs.FailingRun` | src/sst/elements/cramSim/c_DeviceDriver.cc:631-646 | With any other timings, a run of one bank with two reads of one row in which the assertion fails |
| `TwoReads.SecondReadGoes` | src/sst/elements/cramSim/c_BankStateRead.cc:169-249 | Worked out cycle by cycle for all timings: two reads of one row go out in cycles 1 + nRCD and 1 + nRCD + nCCD_L |
| `Runs.StatesOfRun` | src/sst/elements/cramSim/c_Controller.cc:152-222 | A run as a sequence of states and the recursive definition of a run agree state by state |
| `TimingRules.RulesAreKept` | src/sst/elements/cramSim/c_BankGroup.cc:98-178 | In every run, said without the tables: nRRD and nCCD between commands of a group and of a rank, the turnaround and settling times between the data of reads and writes, nRTP and nWR before a PRE, and the data of commands to different banks of a channel never on it in the same cycle |
| `BankTiming.ActAfterPre` | src/sst/elements/cramSim/c_BankStatePrecharge.cc:66-90 | An open bank left alone after a PRE takes an ACT from exactly nRP cycles after it has left its state, no earlier and no later unless other banks ask for more |
| `BankTiming.ActAfterRef` | src/sst/elements/cramSim/c_BankStateRefresh.cc:60-110 | An idle bank left alone after a REF takes an ACT from exactly nRFC cycles on |
| `BankTiming.ColumnAfterAct` | src/sst/elements/cramSim/c_BankStateActive.cc:123-183 | An idle bank left alone after an ACT takes a column command from exactly nRCD cycles on |
| `Runs.BusesAreKept` | src/sst/elements/cramSim/c_DeviceDriver.cc:746-785 | In every run two commands of one channel with the same cycle are of one refresh group or, with a dual bus only, one is a column and the other a row command |
| `Runs.BestIsPicked` | src/sst/elements/cramSim/c_TxnScheduler.cc:124-181 | In every cycle of every run each channel picks, from the queue the pending counts name and only then from the other: first-come the ready head; first-ready the first ready entry that needs no row command, or without one the last ready entry |
| `Choices.ChannelPicksBest` | src/sst/elements/cramSim/c_TxnScheduler.cc:124-181 | A channel's pick, without the scan: which of the two queues is looked at first, by the pending counts and the flush flag, and which of its entries is taken |
| `Choices.ChoiceIsBest` | src/sst/elements/cramSim/c_TxnScheduler.cc:184-223 | The scan of one queue ends at the first ready entry that would get no row command, or without one at the last ready entry |
| `Hazards.ReadyExactly` | src/sst/elements/cramSim/c_TxnScheduler.cc:184-223 | A waiting transaction is ready exactly when its bank's command queue has three free entries and no older transaction to its address that must go first waits in any queue |
| `Runs.RoundsTakeTurns` | src/sst/elements/cramSim/c_CmdScheduler.cc:101-131 | In every state k of every run a channel's round starts at bank k modulo its banks |
| `TurnRuns.RefreshesAreOnTime` | src/sst/elements/cramSim/c_DeviceDriver.cc:398-413 | In every run a refresh of rank r is created in cycle nREFI / (r + 1) + 1 and every nREFI + 1 cycles after, and in no other |
| `TurnRuns.RefreshesTakeTurns` | src/sst/elements/cramSim/c_DeviceDriver.cc:947-977 | In every run with single-bank refresh: as many refreshes have been created by the clock as REFs of the rank are on the trace, plus one that waits, plus those dropped because the next was created first; the j-th REF goes to bank (j + dropped before it) modulo n of the rank's n banks |
| `TurnRuns.RoundsReachEveryBank` | src/sst/elements/cramSim/c_DeviceDriver.cc:947-963 | Where none has been dropped, the j-th REF goes to bank j modulo n, and any n REFs of the rank in a row reach each of its banks exactly once |
| `TurnRuns.BankAfterBankExactly` | src/sst/elements/cramSim/c_DeviceDriver.cc:947-977 | In every run the REFs go bank after bank if and only if before each of them a multiple of n refreshes has been dropped |
| `OpeningRuns.ActsFindTheirBankClosed` | src/sst/elements/cramSim/c_TxnConverter.cc:206-346 | In every state of every run and for every bank, replaying its row buffer over the trace and then over its commands with the driver and in its queue, a waiting refresh counting as closing it: every ACT finds the bank closed if and only if the bank is not stuck, that is, left behind by a dropped refresh and not refreshed since; and then every column command finds its row open, or is the oldest in the command queue of a closed bank |
| `OpeningRuns.ActsFindTheirBankClosedExactly` | src/sst/elements/cramSim/c_DeviceDriver.cc:977-1031 | In every run every ACT finds its bank closed in all states up to k if and only if in no cycle before k a refresh of another bank is created while the bank, open and with an ACT as its oldest command, waits for its own |
| `OpeningRuns.ActsAlwaysFindTheirBankClosed` | src/sst/elements/cramSim/c_DeviceDriver.cc:947-1031 | So it is in every run with all-bank refresh, and in every run that drops no refresh of the bank's rank |
| `OpeningRuns.RefreshIsLost` | src/sst/elements/cramSim/c_DeviceDriver.cc:947-977 | A run of one read, two banks and single-bank refresh in which the refresh of bank 0 is dropped, the first REF is for bank 1, and an ACT waits before the open bank 0 |
| `LostRefresh.Next` | src/sst/elements/cramSim/c_Controller.cc:152-222 | That run worked out cycle by cycle |
| `Openings.StepOpens` | src/sst/elements/cramSim/c_Controller.cc:152-222 | One clock cycle keeps the waiting commands of a bank linked, each finding what it needs left by the one before, and settles whether the bank is stuck |
| `Openings.CreateOpens` | src/sst/elements/cramSim/c_DeviceDriver.cc:947-1031 | Creating a refresh of a rank links the banks it is for, with their re-inserted ACTs, and leaves a bank of the dropped one stuck exactly if it is open under an ACT |
| `RowTimers.RowsCloseInTime` | src/sst/elements/cramSim/c_TxnConverter.cc:250-346 | In every cycle of every run a column command is followed by a precharge of its row exactly when the policy says so: always, never, or once the close time has passed since the ACT for the row was made |
| `QuickHits.EarlyReadsFoundWrites` | src/sst/elements/cramSim/c_Controller.cc:174-184 | In every run, for a read answered and not served: quick response is on, and when the read was taken a write to the same address, with a smaller number, stood in a queue of the scheduler or had been taken just before it |
| `QuickHits.EarlyReadsExactly` | src/sst/elements/cramSim/c_Controller.cc:174-184 | A read taken in cycle j is answered without having been served, from state j + 2 on, if and only if quick response is on and such a write was ahead of it |
| `QuickHits.WritesAnsweredEarly` | src/sst/elements/cramSim/c_Controller.cc:185-193 | With quick response every write that has been taken is answered by the end of the next cycle |
| `QuickHits.LogExact` | src/sst/elements/cramSim/c_Controller.cc:162-203 | Taking requests in order makes a hit of exactly the reads with a write to their address queued before or taken before them |
| `ProgressRuns.NothingIsLost` | src/sst/elements/cramSim/c_DeviceDriver.cc:566-664 | In every state of every run and for every bank: the numbers of the commands made for it, precharges apart, are in order first those it has received and then those that wait, each once |
| `Departures.NoTransactionIsLost` | src/sst/elements/cramSim/c_Controller.cc:162-222 | In every state after it was taken, every transaction of every run is a quick hit, stands in a queue of the scheduler, or has a column command that its bank has received or that waits for it |
| `ProgressRuns.NothingIsLeftUndone` | src/sst/elements/cramSim/c_DeviceDriver.cc:555-664 | After every cycle of every run, of each bank with commands the driver has taken the oldest, or that one is held: its rank waits for a refresh, its bus is taken, the rank has had four ACTs in the nFAW - 1 cycles before, an aliasing write was queued, or its bank does not take it |
| `ProgressRuns.RefreshIsNotLeftUndone` | src/sst/elements/cramSim/c_DeviceDriver.cc:672-721 | After every cycle of every run, of each rank's due refresh the first group has been sent, or a bank of it does not take it or the bus is taken |
| `Conservation.PopConserves` | src/sst/elements/cramSim/c_DeviceDriver.cc:566-664 | A command that leaves the input queue as the oldest of its bank is received, or is a precharge that is dropped, and keeps the account of its bank |
| `Progress.RequestsProgress` | src/sst/elements/cramSim/c_DeviceDriver.cc:555-664 | The request loop, from any queue, takes the oldest command of each bank or leaves it held |
| `BankModel.TickRaises` | src/sst/elements/cramSim/c_BankInfo.cc:149-155 | A tick never lowers an earliest-issue cycle |
| `BankModel.TickKeeps` | src/sst/elements/cramSim/c_BankStateIdle.cc:90-126 | A tick keeps the facts about timers and last cycles, and leaves the row buffer, counted with pending commands, as it was |
| `BankModel.HandleKeeps` | src/sst/elements/cramSim/c_BankStateRead.cc:62-99 | An accepted command keeps the bank facts, lowers nothing, has its effect on the row buffer, and blocks the bank until it has been processed |
| `BankModel.AllowsByRow` | src/sst/elements/cramSim/c_BankStateActive.cc:189-203 | A bank that takes a column command has a row open; one that takes ACT or REF has none |
| `BankInfos.BankInfo.IsCommandAllowed` | src/sst/elements/cramSim/c_BankInfo.cc:161-175 | True exactly when the state takes the command and its earliest-issue cycle has come |
| `BankInfos.BankInfo.HandleCommand` | src/sst/elements/cramSim/c_BankInfo.cc:137-147 | The object takes the step of the bank as a value for a received command |
| `BankInfos.BankInfo.ClockTic` | src/sst/elements/cramSim/c_BankStateRead.cc:101-167 | The object takes the step of the bank as a value for one clock tick, in every state |
| `BankInfos.BankInfo.Enter` | src/sst/elements/cramSim/c_BankStateRefresh.cc:92-110 | Entering the state a command asks for sets timers, rows and earliest-issue cycles as the value model does |
| `BankInfos.BankInfo.DoEnterRead` | src/sst/elements/cramSim/c_BankStateRead.cc:169-249 | Entering the Read state raises the READ, WRITE and PRE cycles from the last READ and ACT |
| `BankInfos.BankInfo.DoEnterWrite` | src/sst/elements/cramSim/c_BankStateWrite.cc:184-264 | Entering the Write state raises the READ, WRITE and PRE cycles from the last WRITE and ACT |
| `BankInfos.BankInfo.DoEnterActive` | src/sst/elements/cramSim/c_BankStateActive.cc:123-183 | Entering the Active state opens the row and raises the column and PRE cycles |
| `BankInfos.BankInfo.DoEnterIdle` | src/sst/elements/cramSim/c_BankStateIdle.cc:129-161 | Entering the Idle state closes the row and makes ACT, REF and PRE possible from now on |
| `BankInfos.BankInfo.RaiseForGroup` | src/sst/elements/cramSim/c_BankGroup.cc:98-178 | A bank of the same group is raised by exactly the same-group column of the distance table |
| `BankInfos.BankInfo.RaiseForRank` | src/sst/elements/cramSim/c_Rank.cc:107-192 | A bank of another group of the rank is raised by exactly the same-rank column of the distance table |
| `BankInfos.BankInfo.RaiseForChannel` | src/sst/elements/cramSim/c_Channel.cc:107-193 | A bank of another rank of the channel is raised by exactly the same-channel column of the distance table |
| `Spacing.AcceptedIsSpaced` | src/sst/elements/cramSim/c_BankInfo.cc:161-175 | A command a bank accepts is far enough from every earlier event its bank owes something to |
| `Spacing.TickInFlight` | src/sst/elements/cramSim/c_BankStatePrecharge.cc:66-90 | A command working its way through the bank's states blocks the bank or leaves its distances behind |
| `Spacing.TickSpacing` | src/sst/elements/cramSim/c_DeviceDriver.cc:452-461 | Ticking all banks keeps the spacing invariant |
| `Spacing.IssueSpacing` | src/sst/elements/cramSim/c_DeviceDriver.cc:809-865 | Issuing a command keeps the spacing invariant, including all pairwise distances of the trace |
| `Rows.IssuedOrder` | src/sst/elements/cramSim/c_DeviceDriver.cc:581-588 | Increasing receipts per bank are the same as sequence order of each bank's commands in the trace |
| `Rows.FlowReopen` | src/sst/elements/cramSim/c_DeviceDriver.cc:497-514 | Re-opening the row of a queued column command just before it keeps the queue consistent |
| `Rows.WalkSplit` | src/sst/elements/cramSim/c_TxnConverter.cc:206-314 | A queue of commands makes sense from a row buffer exactly when its two parts do, one after the other |
| `Faw.CountsSum` | src/sst/elements/cramSim/c_DeviceDriver.cc:912-922 | The sum of a rank's shift register is the number of its ACTs in the trace in the cycles the register covers |
| `Faw.FawUpdate` | src/sst/elements/cramSim/c_DeviceDriver.cc:462-468 | Shifting the registers once per cycle keeps them equal to the trace's counts |
| `Faw.FawIssue` | src/sst/elements/cramSim/c_DeviceDriver.cc:593-596 | An ACT admitted with fewer than four in the register and none this cycle keeps every window at four or less |
| `DriverSafety.SafeUpdate` | src/sst/elements/cramSim/c_DeviceDriver.cc:452-477 | The start of a cycle keeps the driver's invariant |
| `DriverSafety.EligibleIsFirst` | src/sst/elements/cramSim/c_DeviceDriver.cc:581-656 | A request the loop tries is the oldest of its bank, and an ACT finds its rank without an ACT this cycle |
| `DriverSafety.SendStepSafe` | src/sst/elements/cramSim/c_DeviceDriver.cc:566-664 | One pass of the request loop keeps the driver's invariant and the loop's own |
| `DriverSafety.SendLoopSafe` | src/sst/elements/cramSim/c_DeviceDriver.cc:555-664 | The whole request loop keeps the driver's invariant |
| `RefreshSafety.RefreshIsAtomic` | src/sst/elements/cramSim/c_DeviceDriver.cc:672-721 | A refresh step sends its group to all listed banks in this cycle and takes it off the queue, or changes neither trace nor queue |
| `RefreshSafety.SafeCreate` | src/sst/elements/cramSim/c_DeviceDriver.cc:947-1031 | Creating a refresh, with the ACTs it re-inserts, keeps the driver's invariant |
| `RefreshSafety.SafeRun` | src/sst/elements/cramSim/c_DeviceDriver.cc:398-420 | One run of the driver keeps its invariant |
| `Monotone.StepUp` | src/sst/elements/cramSim/c_Controller.cc:152-222 | One clock cycle lowers no earliest-issue cycle of any bank |
| `DeviceDrivers.RaiseOthersInGroup` | src/sst/elements/cramSim/c_BankGroup.cc:83-181 | The loop raises the other banks of the group and changes no other bank |
| `DeviceDrivers.RaiseOthersInRank` | src/sst/elements/cramSim/c_Rank.cc:94-196 | The loop raises the banks of the rank's other groups and changes no other bank |
| `DeviceDrivers.RaiseOthersInChannel` | src/sst/elements/cramSim/c_Channel.cc:91-199 | The loop raises the banks of the channel's other ranks and changes no other bank |
| `DeviceDrivers.HandleAndSpread` | src/sst/elements/cramSim/c_BankInfo.cc:137-147 | The receiving bank and the three loops together give every bank the state of the value model |
| `DeviceDrivers.DeviceDriver.Tic` | src/sst/elements/cramSim/c_DeviceDriver.cc:452-477 | Ticks banks, shifts the ACT trackers, frees buses and clears flags as the value model does |
| `DeviceDrivers.DeviceDriver.OccupyCommandBus` | src/sst/elements/cramSim/c_DeviceDriver.cc:746-785 | The buses are those of the value model, of which `Runs.BusesAreKept` is proved: without a dual bus both are taken, and the result tells whether every bus of every channel is taken |
| `DeviceDrivers.DeviceDriver.ReleaseCommandBus` | src/sst/elements/cramSim/c_DeviceDriver.cc:790-801 | Every busy counter goes down by one |
| `DeviceDrivers.DeviceDriver.SendCommand` | src/sst/elements/cramSim/c_DeviceDriver.cc:809-865 | Sends exactly when the bank accepts, appending to the trace; otherwise nothing changes |
| `DeviceDrivers.DeviceDriver.IsCmdAllowed` | src/sst/elements/cramSim/c_DeviceDriver.cc:487-537 | Answer and re-inserted ACT are those of the value model |
| `DeviceDrivers.DeviceDriver.PushCommand` | src/sst/elements/cramSim/c_DeviceDriver.cc:929-939 | Accepts while fewer than 32 commands wait, and takes the bus |
| `DeviceDrivers.DeviceDriver.SendRequest` | src/sst/elements/cramSim/c_DeviceDriver.cc:555-664 | The request loop is the recursive loop of the value model |
| `DeviceDrivers.DeviceDriver.CreateRefreshCmds` | src/sst/elements/cramSim/c_DeviceDriver.cc:947-1031 | Precharge and refresh groups, turn and re-inserted ACTs are those of the value model, of which `TurnRuns.RefreshesTakeTurns` and `OpeningRuns.ActsFindTheirBankClosedExactly` are proved |
| `DeviceDrivers.DeviceDriver.SendRefreshCmd` | src/sst/elements/cramSim/c_DeviceDriver.cc:672-721 | Sends the first group to all its banks or changes nothing, as the value model does |
| `DeviceDrivers.DeviceDriver.RunCycle` | src/sst/elements/cramSim/c_DeviceDriver.cc:398-420 | Releases buses, handles every rank's refresh and sends requests as the value model does |
| `DeviceDrivers.DeviceDriver.constructor` | src/sst/elements/cramSim/c_DeviceDriver.cc:270-379 | The driver starts in the initial state of the value model |
| `ControllerSafety.ConvertFits` | src/sst/elements/cramSim/c_TxnConverter.cc:126-161 | With three free entries every command of a transaction is pushed, and the queue grows by exactly those commands |
| `ControllerSafety.KindsWalk` | src/sst/elements/cramSim/c_TxnConverter.cc:206-346 | The commands made for a transaction walk from the tracked row (or a row a refresh closed) to the row the converter tracks next, for all three page policies |
| `ControllerSafety.PicksAffordable` | src/sst/elements/cramSim/c_TxnScheduler.cc:124-181 | The transactions picked in one cycle go to different banks, each with three free entries |
| `ControllerSafety.ConvertAllSafe` | src/sst/elements/cramSim/c_TxnConverter.cc:126-161 | Converting them keeps the invariant and fails no assertion |
| `ControllerSafety.VisitAllSafe` | src/sst/elements/cramSim/c_CmdScheduler.cc:95-133 | The command scheduler's round keeps the invariant |
| `ControllerSafety.StepSafe` | src/sst/elements/cramSim/c_Controller.cc:152-222 | One clock cycle keeps the invariant of the whole controller, whatever arrives, and fails no assertion |
| `ControllerSafety.RunsAreSafe` | src/sst/elements/cramSim/c_Controller.cc:152-222 | Spacing, rows, activation window, per-bank order and flow control for the recursive definition of runs |
| `Hazards.DependencyExact` | src/sst/elements/cramSim/c_TxnScheduler.cc:295-321 | On a queue in sequence order the scan with its early stop finds a dependency exactly when an older transaction to the address waits |
| `Hazards.PickedIsOldest` | src/sst/elements/cramSim/c_TxnScheduler.cc:184-223 | A chosen transaction is older than every conflicting one that stays in any queue |
| `Hazards.TakeKeeps` | src/sst/elements/cramSim/c_TxnScheduler.cc:225-228 | Taking it out keeps departures in order and everything departed ahead of what waits |
| `Hazards.RunHazards` | src/sst/elements/cramSim/c_Controller.cc:152-222 | The arrivals of a run split into accepted and still waiting requests, and the order invariant holds of the accepted ones |
| `Schedulers.FindDependency` | src/sst/elements/cramSim/c_TxnScheduler.cc:295-321 | The loop computes the dependency predicate |
| `Schedulers.TxnScheduler.Push` | src/sst/elements/cramSim/c_TxnScheduler.cc:230-261 | Appends to the channel's queue when it has room |
| `Schedulers.TxnScheduler.IsHit` | src/sst/elements/cramSim/c_TxnScheduler.cc:265-293 | True exactly when the argument is a read and its channel's queue holds a write to its address; `QuickHits.HitMeans` shows that no queue of the scheduler holds one otherwise |
| `Schedulers.TxnScheduler.GetNext` | src/sst/elements/cramSim/c_TxnScheduler.cc:184-223 | First-come gives the ready head; first-ready gives the first ready entry that would get no row command if converted now, and without one the last ready entry |
| `Schedulers.TxnScheduler.RunAll` | src/sst/elements/cramSim/c_TxnScheduler.cc:124-181 | The loop over channels picks what the value model picks and removes it |
| `Schedulers.TxnConverter.GetCommands` | src/sst/elements/cramSim/c_TxnConverter.cc:181-346 | Commands, tracked row and close timer are those of the value model for each page policy, of which `OpeningRuns.ActsFindTheirBankClosed` and `RowTimers.RowsCloseInTime` are proved |
| `Schedulers.TxnConverter.ConvertPicks` | src/sst/elements/cramSim/c_TxnConverter.cc:126-161 | Queues, tracked rows, numbers and the assertion flag are those of the value model |
| `Schedulers.TxnConverter.AgeTimers` | src/sst/elements/cramSim/c_TxnConverter.cc:153-159 | The close timers of open rows count down under the pseudo-open policy only |
| `Schedulers.CmdScheduler.GetToken` | src/sst/elements/cramSim/c_CmdScheduler.cc:149-156 | The number of free entries, on unsigned numbers |
| `Schedulers.CmdScheduler.PushCmd` | src/sst/elements/cramSim/c_CmdScheduler.cc:136-146 | Appends to the bank's queue when it has room |
| `Schedulers.CmdScheduler.RunCommands` | src/sst/elements/cramSim/c_CmdScheduler.cc:95-133 | The nested loops visit the banks channel by channel from their round-robin starts, as the value model does, and advance the starts |
| `Schedulers.RoundVisitsAll` | src/sst/elements/cramSim/c_CmdScheduler.cc:101-131 | A round of a channel visits every bank of the channel exactly once, wherever it starts |
| `Controllers.Controller.Advance` | src/sst/elements/cramSim/c_Controller.cc:152-222 | One tick of the object, after the arrivals and returns since the last, is one step of the value model: commands, transactions, responses, and the flags of assertions and searches |
| `Controllers.Controller.ClockTic` | src/sst/elements/cramSim/c_Controller.cc:152-222 | Every reachable controller object is a run of the model: no assertion fails and its trace keeps distances, rows, window and bank order; with rising numbers and a device that returns what was issued, it is a run with responses too and every search finds its transaction |
| `ServiceRuns.AnsweredAtMostOnce` | src/sst/elements/cramSim/c_Controller.cc:234-324 | In every state of every run, whatever arrives and in whatever order the device returns issued column commands: no transaction has been answered twice, by its entry or by a copy; an answered one has left the request queue and its column command was issued and returned, or quick response is on and it is a read that hit a queued write, or a queued write |
| `ServiceRuns.ReturnedIsAnswered` | src/sst/elements/cramSim/c_Controller.cc:234-324 | A transaction whose column command has returned has been answered exactly once by the end of the cycle; a write answered early by its copy is not answered again |
| `ServiceRuns.SearchIsExact` | src/sst/elements/cramSim/c_Controller.cc:287-303 | In every state of every run, for every issued column command that has not returned, the search for its number stops at the entry of the transaction the number was given to, which is not ready and waits for one command |
| `ServiceRuns.NoSearchFails` | src/sst/elements/cramSim/c_Controller.cc:287-303 | In every run no returning command misses its transaction, so that fatal error never happens, nor does an assertion of the converter fail |
| `ServiceRuns.CoreIsRun` | src/sst/elements/cramSim/c_Controller.cc:152-222 | Without its responses a run of the controller is a run as the other theorems take it, with quick response on or off |
| `ServiceRuns.MemoryStepKeeps` | src/sst/elements/cramSim/c_Controller.cc:152-324 | One cycle with its arrivals and returns keeps the agreement of response queue, scheduler queues, command numbers and returned commands |
| `ServiceSafety.SearchFindsItsEntry` | src/sst/elements/cramSim/c_Controller.cc:293-303 | Among entries that list exactly the numbers given to their transactions, the first that lists a number belongs to its owner |
| `ServiceSafety.RecordedKeeps` | src/sst/elements/cramSim/c_TxnConverter.cc:181-203 | Telling transactions the numbers of their new commands and to wait for one keeps every entry's list exact |
| `Service.EventsCommute` | src/sst/elements/cramSim/c_Controller.cc:265-324 | Whether a transaction arrives before or after a command returns makes no difference to the response queue |
| `ReplyDesks.ReplyDesk.HandleIncoming` | src/sst/elements/cramSim/c_Controller.cc:265-284 | The transaction is appended to the response queue |
| `ReplyDesks.ReplyDesk.HandleDeviceResponse` | src/sst/elements/cramSim/c_Controller.cc:287-324 | The loop finds the first entry that lists the number, counts its waiting commands down on unsigned numbers and at zero marks it ready, or drops it when a copy answered the write; not found is reported |
| `ReplyDesks.ReplyDesk.SendResponse` | src/sst/elements/cramSim/c_Controller.cc:234-260 | The erase loop sends and removes exactly the ready entries, in order |
| `ReplyDesks.ReplyDesk.MarkHit` | src/sst/elements/cramSim/c_Controller.cc:174-184 | A read that hit a queued write has its entry marked ready |
| `ReplyDesks.ReplyDesk.NoteQueued` | src/sst/elements/cramSim/c_Controller.cc:185-198 | With quick response a queued write gets a ready copy in the response queue |
| `ReplyDesks.ReplyDesk.Record` | src/sst/elements/cramSim/c_TxnConverter.cc:181-203 | Every entry of a transaction that got commands lists their numbers and waits for one |
| `AddressMap.ParsePattern` | src/sst/elements/cramSim/c_AddressHasher.cc:529-578 | The backward scan yields the last field with its size, gets stuck, or stops with an error, as its recursive description says |
| `AddressMap.ParseRecovers` | src/sst/elements/cramSim/c_AddressHasher.cc:73-84 | For every well-formed map string parsing ends and recovers its fields with their sizes, lowest first |
| `AddressMap.SpacedParses` | src/sst/elements/cramSim/c_AddressHasher.cc:58-84 | Underscores and line ends before, between and after the fields of a well-formed map string do not matter: cleaned and parsed it gives the same fields |
| `AddressMap.Clean` | src/sst/elements/cramSim/c_AddressHasher.cc:58-63 | Erases every underscore and every line end and nothing else |
| `AddressMap.PositionsIncrease` | src/sst/elements/cramSim/c_AddressHasher.cc:76-79 | Each field's bit positions are strictly increasing |
| `AddressMap.PositionsPartition` | src/sst/elements/cramSim/c_AddressHasher.cc:73-84 | Every mapped bit is in the list of exactly one field, and no other bit is in any |
| `AddressMap.Build` | src/sst/elements/cramSim/c_AddressHasher.cc:73-84 | The loop fills each field's list with exactly its positions |
| `AddressMap.BuildMap` | src/sst/elements/cramSim/c_AddressHasher.cc:91-123 | A map that only lists the order of the fields gets the sizes of the configured geometry; any other map is used as written |
| `Bits.AtLeastIndex` | src/sst/elements/cramSim/c_AddressHasher.cc:284-289 | Increasing positions are never below their index, so no shift amount is negative |
| `Bits.Gather` | src/sst/elements/cramSim/c_AddressHasher.cc:283-289 | Bit i of the result is the address bit at position i of the list, and no other bit is set |
| `Bits.Scatter` | src/sst/elements/cramSim/c_AddressHasher.cc:455-465 | The bits of the value appear at the listed positions and nowhere else |
| `AddressHasher.Hasher.FillHashedAddress` | src/sst/elements/cramSim/c_AddressHasher.cc:273-412 | Every field, the bank number and the rank number of the address |
| `AddressHasher.Hasher.GetAddressForBankId` | src/sst/elements/cramSim/c_AddressHasher.cc:416-521 | An address whose fields are the place of the bank number |
| `AddressHasher.Hasher.RoundTrip` | src/sst/elements/cramSim/c_AddressHasher.cc:397-521 | Hashing the address made for a bank number in range returns the number, a place in range and its rank number |
| `AddressHasher.HashIsInjective` | src/sst/elements/cramSim/c_AddressHasher.cc:273-395 | Addresses with equal fields agree on every mapped bit outside the unused ones |
| `AddressHasher.BankIdIsInjective` | src/sst/elements/cramSim/c_AddressHasher.cc:397-403 | Different places have different bank numbers |
| `AddressHasher.QueueIsUnique` | src/sst/elements/cramSim/c_CmdScheduler.cc:136-138 | Channel and bank number modulo the channel's banks identify the bank's queue |
| `AddressHasher.Locate` | src/sst/elements/cramSim/c_AddressHasher.cc:416-448 | The subtraction loops find the place of a bank number |
| `Wiring.Wire` | src/sst/elements/cramSim/c_DeviceDriver.cc:273-331 | The nested loops build a well-formed hierarchy of the given geometry |
| `Wiring.HasherAgrees` | src/sst/elements/cramSim/c_DeviceDriver.cc:297-331 | For every place, the driver's group, rank and channel of its bank number are the hasher's |
| `DmaRuns.DoneMeansTransferred` | src/sst/elements/balar/dmaEngine.cc:241-305 | In every run of requests whose chunks come out even, under any interleaving of ticks and out-of-order responses of several live requests, the destination of a request that is done equals its source |
| `DmaFrame.DoneHoldsTheOriginal` | src/sst/elements/balar/dmaEngine.cc:84-305 | In every such run, the destination of a request that is done holds what its source held at any time since the request was accepted |
| `DmaFrame.SourceStays` | src/sst/elements/balar/dmaEngine.cc:198-234 | As long as a request is live its addresses, size and direction stay, and so do the bytes of its source, because the overlap test keeps every live destination away from it |
| `DmaFrame.OutsideStays` | src/sst/elements/balar/dmaEngine.cc:84-305 | A byte of either memory that is in the destination of no live request does not change |
| `DmaRuns.OngoingIsExact` | src/sst/elements/balar/dmaEngine.cc:84-160 | The ongoing count is the number of the request's operations in flight; a waiting request has at least one, a finished one none |
| `DmaRuns.AnsweredExactlyOnce` | src/sst/elements/balar/dmaEngine.cc:161-184 | Completion is reported exactly once for every non-posted request that has left the queue, never for a posted or a live one |
| `DmaRuns.ResponsesFindTheirRequest` | src/sst/elements/balar/dmaEngine.cc:244-252 | A response always finds its request, and the copy it makes stays inside the memories |
| `DmaReach.LastChunkReaches` | src/sst/elements/balar/dmaEngine.cc:93-150 | In every run inside the memories, with whatever sizes: the tick in which a request stops being busy leaves its offset, and sends an operation that ends, where whole chunks covering the size end; that is past the requested range if and only if the size neither fits in one chunk nor is a whole number of chunks |
| `DmaReach.EvenStaysInside` | src/sst/elements/balar/dmaEngine.cc:93-150 | In every such run no operation of an even request ends past its range |
| `DmaReach.EvenExactly` | src/sst/elements/balar/dmaEngine.cc:93-98 | Whole chunks cover exactly the requested bytes if and only if the transfer fits in one chunk or is a whole number of chunks |
| `DmaReach.UnevenOverruns` | src/sst/elements/balar/dmaEngine.cc:93-126 | A run of a request of three bytes in chunks of two that overwrites a fourth byte |
| `DmaRuns.DmaEngine.HandleWrite` | src/sst/elements/balar/dmaEngine.cc:198-234 | Accepts exactly the requests that touch no live one in either memory |
| `DmaRuns.DmaEngine.Serve` | src/sst/elements/balar/dmaEngine.cc:87-178 | One queue entry: the next chunk operation with its data, or waiting, or completion |
| `DmaRuns.DmaEngine.ClockTick` | src/sst/elements/balar/dmaEngine.cc:84-187 | A tick serves all entries in order and drops the finished ones |
| `DmaRuns.DmaEngine.HandleResponse` | src/sst/elements/balar/dmaEngine.cc:241-275 | A response copies read data to its place, counts down and finishes the request when it was the last |
| `Dma.AcceptKeeps` | src/sst/elements/balar/dmaEngine.cc:198-234 | Accepting a request keeps the engine's invariant |
| `Dma.TickOneKeeps` | src/sst/elements/balar/dmaEngine.cc:87-178 | Serving an entry keeps the invariant and removes only finished requests |
| `Dma.PerformKeeps` | src/sst/elements/balar/dmaEngine.cc:101-150 | An operation performed by the memory at any time keeps the invariant |
| `Dma.RespondKeeps` | src/sst/elements/balar/dmaEngine.cc:241-305 | A response, in any order, keeps the invariant |
| `DmaPace.OneChunkPerTick` | src/sst/elements/balar/dmaEngine.cc:84-160 | In every such run a request that is still busy has had exactly one chunk sent for every tick it has lived through |
| `DmaPace.SentInTime` | src/sst/elements/balar/dmaEngine.cc:84-160 | So after as many ticks as it has chunks it is busy no more, unless it is empty |
| `DmaPace.TickServes` | src/sst/elements/balar/dmaEngine.cc:84-187 | A tick advances every busy request by one chunk, leaves every waiting one and drops every finished one |
| `DmaPace.TouchExactly` | src/sst/elements/balar/dmaEngine.cc:205-217 | Two ranges count as overlapping exactly when they share an address, the one after their last byte included |
| `MallocModel.TranslationIsInjective` | src/sst/elements/ariel/arielmemmgr_malloc.cc:271-285 | The predecessor lookup sends different live addresses to different physical addresses |
| `MallocModel.TranslationStaysInside` | src/sst/elements/ariel/arielmemmgr_malloc.cc:271-285 | A live address translates into a page mapped by one of its own allocation's keys |
| `MallocModel.PredecessorIsOwn` | src/sst/elements/ariel/arielmemmgr_malloc.cc:271-285 | The largest key not above a live address belongs to its own allocation and starts its page |
| `MallocModel.MapOneConserves` | src/sst/elements/ariel/arielmemmgr_malloc.cc:208-214 | Mapping a free page keeps every page in exactly one place |
| `MallocModel.UnmapOneConserves` | src/sst/elements/ariel/arielmemmgr_malloc.cc:237-241 | Giving a page back keeps every page in exactly one place |
| `Translations.AllTranslationsApart` | src/sst/elements/ariel/arielmemmgr_malloc.cc:250-310 | Different addresses that translate, through allocations or page tables of any level, translate to different physical addresses |
| `Translations.AnswersStayExactly` | src/sst/elements/ariel/arielmemmgr_malloc.cc:288-341 | Over all page counts, orders of the pools and sequences of translations, an answer once given stays if and only if the page size of every level below the default one divides the default level's; otherwise a fresh page of a lower level shadows a known address |
| `Translations.AnswersStayForAll` | src/sst/elements/ariel/arielmemmgr_malloc.cc:288-341 | Answers stay for every default level if and only if each level's page size divides those of all higher levels |
| `Translations.LargePageShadows` | src/sst/elements/ariel/arielmemmgr_malloc.cc:288-341 | With pages of 8192 and 4096 bytes, one of each, and default level 1: address 100 is answered 8292, and after a translation of 5000 it is answered 100 |
| `Translations.LiveStays` | src/sst/elements/ariel/arielmemmgr_malloc.cc:271-285 | The answer inside a live allocation is not changed by any sequence of translations |
| `Translations.TouchedAnswers` | src/sst/elements/ariel/arielmemmgr_malloc.cc:316-341 | A translation has no answer exactly when the address is unknown and no level has a page left |
| `MallocManagers.MallocManager.constructor` | src/sst/elements/ariel/arielmemmgr_malloc.cc:30-82 | Each level's pool holds, in order or shuffled, exactly its pages behind those of the levels before; nothing is mapped in any table or map |
| `MallocManagers.MallocManager.Lookup` | src/sst/elements/ariel/arielmemmgr_malloc.cc:271-285 | Finds the translation of an address exactly when it lies in a live allocation |
| `MallocManagers.MallocManager.AllocateMalloc` | src/sst/elements/ariel/arielmemmgr_malloc.cc:176-224 | The whole new state: the allocation that holds the address is freed, then pages are mapped one by one under keys not yet in use and the allocation is recorded, or there are too few pages; pools and maps stay consistent if and only if the new allocation is not empty and no live one starts inside it |
| `MallocManagers.MallocManager.FreeMalloc` | src/sst/elements/ariel/arielmemmgr_malloc.cc:227-247 | The whole new state: the allocation's pages go back to the front of its pool in some order and its record is dropped; unknown addresses change nothing; pools and maps stay consistent |
| `MallocManagers.MallocManager.Translate` | src/sst/elements/ariel/arielmemmgr_malloc.cc:250-347 | A cached answer is given as it is; otherwise the answer is looked up, an unknown address getting one page, and cached; with a current cache and page sizes that divide each other upwards every answer is the current translation and the cache stays current |
| `MallocManagers.MallocManager.Resolve` | src/sst/elements/ariel/arielmemmgr_malloc.cc:270-347 | The answer is the live allocation's, else that of the lowest level whose table knows the page; an unknown address first gets one page, of the default level or else the first level with a page, and nothing else changes |
| `MallocCache.FreeAgreesExactly` | src/sst/elements/ariel/arielmemmgr_malloc.cc:227-247 | A free leaves the cache alone, so a current cache stays current if and only if it holds no address of the freed allocation |
| `MallocCache.AllocAgrees` | src/sst/elements/ariel/arielmemmgr_malloc.cc:193-224 | Mapping a new allocation keeps a current cache current if it holds no address of the new range |
| `MallocCache.TouchAgrees` | src/sst/elements/ariel/arielmemmgr_malloc.cc:250-347 | With page sizes that divide each other upwards a translation of any address keeps a current cache current, allocations or not |
| `MallocSteps.AllocatedExactly` | src/sst/elements/ariel/arielmemmgr_malloc.cc:193-224 | Allocating where no live allocation holds the start keeps pools and maps consistent if and only if the allocation is not empty and no live one starts inside it |
| `MallocRuns.RunKeepsPages` | src/sst/elements/ariel/arielmemmgr_malloc.cc:176-347 | Over every run of translations, allocations and frees, free pools plus mapped pages are exactly the initial pages, each once, and the three maps are consistent |
| `MallocRuns.RunAnswersApart` | src/sst/elements/ariel/arielmemmgr_malloc.cc:176-347 | In every state of every such run different addresses have different answers |
| `MallocRuns.AnswersKeptExactly` | src/sst/elements/ariel/arielmemmgr_malloc.cc:176-347 | Over all such runs and all pools, the answer of an address that is not allocated then and now stays if and only if each level's page size divides those of all higher levels, whatever the default level |
| `MallocRuns.ShadowingRun` | src/sst/elements/ariel/arielmemmgr_malloc.cc:176-347 | For any pair of levels that does not divide: a run in which a free refills the lower level and the next translation shadows a known address |
| `MallocManagers.MallocManager.FindInTables` | src/sst/elements/ariel/arielmemmgr_malloc.cc:288-310 | The loop finds the lowest level whose table knows the page |
| `MallocManagers.Predecessor` | src/sst/elements/ariel/arielmemmgr_malloc.cc:272-275 | The largest key not above the address, if there is one |
| `SimpleManagers.SimpleManager.Translate` | src/sst/elements/ariel/arielmemmgr_simple.cc:93-149 | Whatever the cache holds and evicts, answer and new table are those of the plain page table; the cache stays within its limit and agrees with the table |
| `SimpleManagers.SimpleManager.TranslateAll` | src/sst/elements/ariel/arielmemmgr_simple.cc:93-149 | Any sequence of addresses is answered as the plain page table answers it |
| `SimpleManagers.SimpleManager.CacheTranslation` | src/sst/elements/ariel/arielmemmgr_cache.h:186-195 | The cache gains the entry, loses at most one other, and never exceeds its limit |
| `SimpleManagers.SimpleManager.AllocatePage` | src/sst/elements/ariel/arielmemmgr_simple.cc:73-86 | The first free page is mapped, or nothing changes when there is none |
| `SimpleManagers.KnownIsInjective` | src/sst/elements/ariel/arielmemmgr_simple.cc:115-129 | Different known addresses have different physical addresses |
| `SimpleManagers.TouchedKeeps` | src/sst/elements/ariel/arielmemmgr_simple.cc:52-90 | A demand allocation loses no page and hands none out twice |
| `SimpleManagers.AnswerMissing` | src/sst/elements/ariel/arielmemmgr_simple.cc:130-149 | The answer is missing exactly when the page is unknown and none is free; a second attempt always hits, so the retry happens at most once |
| `PagePools.MapPagesLinear` | src/sst/elements/ariel/arielmemmgr_cache.h:114-122 | The pool lists the page addresses in order |
| `PagePools.MapPagesRandom` | src/sst/elements/ariel/arielmemmgr_cache.h:124-154 | Whatever the random draws, the pool is a permutation of the linear one |
| `PagePools.ShuffleKeepsPages` | src/sst/elements/ariel/arielmemmgr_cache.h:124-154 | A permuted pool has the same pages, each once |
| `SplitAccess.Access` | src/sst/elements/ariel/arielcore.cc:536-608 | The requests of an access follow each other over exactly the trimmed bytes, each within one physical line, each byte at its own translation, also across pages |
| `SplitAccess.EveryByteOnce` | src/sst/elements/ariel/arielcore.cc:610-689 | Such requests hold every byte of the access exactly once and no other byte |
| `Prefetch.TableIsLru` | src/sst/elements/cassini/palaprefetch.cc:30-119 | For every access trace and capacity of at least two, the queue is the capacity - 1 most recently used distinct tags in recency order, the table holds exactly these tags, each with its last address |
| `Prefetch.TableHasLearned` | src/sst/elements/cassini/palaprefetch.cc:41-86 | For every access trace, each tag in the table has exactly the filter that its own accesses since it last became one of the most recently used lead to |
| `Prefetch.StridesAreLearned` | src/sst/elements/cassini/palaprefetch.cc:41-86 | Over every trace, a stride in the table is the block size or a distance that occurred twice in a row for that tag since it entered, and a distance that has just occurred three times in a row is the stride |
| `Prefetch.InStepExactly` | src/sst/elements/cassini/palaprefetch.cc:104-127 | Table and queue stay in step in every run if and only if the capacity is at least two; below that the dispatch lookup leaves a stray key |
| `Prefetch.FrontOfPrefix` | src/sst/elements/cassini/palaprefetch.cc:84-108 | Moving a tag to the front commutes with forgetting the least recently used ones |
| `Prefetch.PalaPrefetcher.NotifyAccess` | src/sst/elements/cassini/palaprefetch.cc:30-119 | An access keeps table and queue equal to the most recently used tags of the trace, a stride is looked up for a prefetch exactly on every detection-range-th access, and it is the one the tag's own accesses have taught |
| `Sweep.PartitionIsExact` | scripts/sweep_attention.py:115-131 | For every accepted head pair and length the eight static workers' tiles times the key heads are exactly hq * T * (T + 1) / 2 with T = length / 64 |
| `Sweep.CausalFloorIsLeast` | scripts/sweep_attention.py:94-112 | The causal floor is at most n exactly when n cycles are enough for the query-key products, the value products and the exponentials, each counted tile by tile and divided by its rate |
| `Sweep.DenseFloorIsLeast` | scripts/sweep_attention.py:108-112 | The dense floor likewise, with every query row meeting every key row |
| `Sweep.StaticAtLeastPerfect` | scripts/sweep_attention.py:94-131 | The floor of the fixed partition is at least the perfect-overlap EXP term |
| `Sweep.CausalAtMostDense` | scripts/sweep_attention.py:94-112 | The causal floor never exceeds the dense one |
| `Sweep.StaticCausalExpFloor` | scripts/sweep_attention.py:115-131 | 256 times the load of the busiest of the eight workers, or refusal exactly when shares are not whole tiles |
| `Sweep.BusiestTiles` | scripts/sweep_attention.py:122-130 | The largest load of a worker: an upper bound that some worker reaches |
| `Sweep.SumTiles` | scripts/sweep_attention.py:125-129 | The sum over a worker's rows in steps of 64 |

## Left out

- READA and WRITEA, and the choice of auto-precharge: those states lower earliest-issue cycles, and the Read and Write states abort on them, so the spacing theorem is about runs without them.
- More than one pseudo channel per channel: the refresh command's channel number is only right with one.
- The RANK command-scheduling policy: it indexes modulo one less than the number of queues and misses the last queue.
- Several command groups per transaction: the converter's single waiting count assumes one.
- Wrap-around of 64-bit cycle counters and 32-bit sequence numbers; cycles and numbers are unbounded here. The Idle timer's wrap below zero, the 32-bit in-flight write addresses, the unsigned token count and the 32-bit stride are modelled.
- The pending-write thresholds as fractions: they appear as entry counts, after the source's truncation.
- The links and the device between driver and controller: a column command that was issued may return in any later cycle, in any order, once; row commands returned by the device are not modelled, because the device returns data commands only (`src/sst/elements/cramSim/c_Bank.cc:136-193`).
- Bounds on waiting times: under first-ready scheduling a transaction may starve, and a refresh may be dropped; what is proved is that nothing is lost and that whatever waits after a cycle waits for a reason (`ProgressRuns`).
- The number of REFs of an all-bank refresh: their period and their groups are proved, the account of sent, waiting and dropped ones for single-bank refresh only.
- c_Dimm energy, statistics, command-trace printing, serialization, object lifetimes and delete calls.
- c_TxnGen, c_TraceFileReader, c_MemhBridge: replaced by arbitrary arrivals.
- The hasher's fatal configuration messages: `AddressHasher.Fits` is the condition they leave; addresses that hash outside the configured geometry are excluded by `ControllerSafety.ArrivalsOk`.
- A map string whose front is only digits or colons makes the parsing loop run forever; `AddressMap.Parse` gives no fields for it.
- `MallocCache.AllocAgrees`: one direction only, because an allocation that gets its freed page back at the same place leaves cached answers current.
- Multi-page `allocate` calls, populated page tables and mmap of the memory managers.
- ArielCore events, fences, stalls, tunnels and RTL: only the splitting of reads and writes is modelled.
- The DMA engine's register decoding and its error flag.
- The prefetch target address, page check and prefetch history of the prefetcher.
- Floating-point rounding in the sweep's ceilings, which are exact here; process control and files of the sweep script.
- TxnDispatcher, cassini/dmaengine.cc, balarMMIO and the native runtime: unfinished or decided by code that is not part of this model.
