# lotsadice in Dafny

A model of the lotsadice dice roller, with proofs. The program rolls `N` dice of `M`
sides, given on the command line as `"NdM"` (e.g. `216000d20`), and prints the total.
It spreads the rolls over one goroutine per CPU: the quotient `numRolls / numCPUs` is each
worker's share, and the first `numRolls % numCPUs` workers roll once more. The
subtotals come back over a buffered channel and are added up. With `-repeat R` the
roll is repeated `R` times, and a tally of how often each total occurred is printed
sorted by sum.

The model has six modules:

- `GoArith` (`go_arith.dfy`): Go's truncating `/` and `%` and the 64-bit bounds.
- `GoStrings` (`go_strings.dfy`): `strings.Split` for a one-character separator, and its inverse `Join`.
- `GoStrconv` (`go_strconv.dfy`): `strconv.Atoi` and `strconv.Itoa`.
- `LotsaDice` (`lotsadice.dfy`): `rollDice`, meaning the partition of the rolls, the workers and the fan-in.
- `Cli` (`main.dfy`): argument parsing, the repeat-and-tally loop, `performRolls`, `sortMap` and `main`.
- `Results` (`results.dfy`): the `Result` datatype used for errors.

Randomness is an input. A trial is given a sequence of non-negative draws, which is
what `rand.Int` returns, and worker `i` consumes its own contiguous slice of it.
`runtime.NumCPU()` is the parameter `numCPUs >= 1`. The goroutines become a
sequential loop. The channel's receive order is left open: each receive takes any
pending subtotal.

The model follows the Go code in the cases a reader might expect to be refused:

- A negative roll count gives each worker a share of at most zero. No roll is made and the total is 0.
- A negative die size rolls values in `[1, abs(dieSize)]`, because Go's `%` takes the sign of the dividend.
- A zero die size is not refused by the argument check. The program crashes with a division by zero
  only when a roll is actually made, that is, when `numRolls > 0` and `repeat > 0`.
- A sort type other than `"sum"` prints only the "Unsupported sort type" message. That includes
  `"count"`, which the flag's help text offers.

## Model

| member | source | states |
|---|---|---|
| GoArith.Quot | lotsadice.go:18 | Go's `/`: the quotient truncated toward zero; its sign follows the operands |
| GoArith.Rem | lotsadice.go:19 | Go's `%`: smaller than the divisor in magnitude, with the sign of the dividend |
| GoArith.QuotRemIdentity | lotsadice.go:18-19 | `numRolls == numCPUs * (numRolls / numCPUs) + numRolls % numCPUs` for every sign |
| GoArith.QuotRemUnique | lotsadice.go:18-19 | for a non-negative dividend, the quotient and remainder are the only pair with `a == b*q + r`, `0 <= r < b` |
| GoArith.NatDivModIdentity | lotsadice.go:18-19 | the quotient and remainder of naturals by repeated subtraction recombine to the dividend |
| LotsaDice.RollValue | lotsadice.go:43 | one roll `rand.Int()%dieSize + 1` lies in `[1, abs(dieSize)]` |
| LotsaDice.SumRolls | lotsadice.go:42-44 | the `for j` accumulation of one worker: the sum of its rolls, added left to right, is at least one per roll |
| LotsaDice.SumRollsBounds | lotsadice.go:42-44 | `k` rolls add up to a value in `[k, k*abs(dieSize)]`, and to exactly `k` for a one-sided die |
| LotsaDice.SumRollsAppend | lotsadice.go:42-44 | rolling two stretches of draws in turn adds their sums |
| LotsaDice.SumRollsSplit | lotsadice.go:32-47 | the rolls before `hi` are those before `lo` plus those of the slice `[lo, hi)` |
| LotsaDice.SumAppend | lotsadice.go:49-53 | the sum of a concatenation is the sum of the sums |
| LotsaDice.SumRemove | lotsadice.go:51-53 | receiving the subtotal at position `k` takes exactly that value off what is pending |
| LotsaDice.SumPermutation | lotsadice.go:49-53 | any rearrangement of the subtotals has the same sum, so the channel's delivery order does not matter |
| LotsaDice.Share | lotsadice.go:34-39 | `rollsForThisCPU`: the truncating quotient `numRolls / numCPUs`, plus at most one; never negative for a non-negative roll count |
| LotsaDice.Performed | lotsadice.go:42-44 | the number of times the `for j` loop runs: the share itself for a non-negative roll count, zero when the roll count is `<= 0` |
| LotsaDice.RollsBefore | lotsadice.go:32-46 | where worker `index`'s draws start: the rolls made by the workers before it, none when the roll count is `<= 0` |
| LotsaDice.ShareOfWorker | lotsadice.go:18-39 | with `numRolls == numCPUs*q + r`, `0 <= r < numCPUs`, worker `index` rolls `q+1` times if `index < r`, else `q` |
| LotsaDice.NegativeShares | lotsadice.go:18-42 | a negative roll count gives every worker a share `<= 0`, so no roll is made |
| LotsaDice.SharesFair | lotsadice.go:34-39 | any two workers' shares, and their performed rolls, differ by at most one |
| LotsaDice.RollsBeforeClosedForm | lotsadice.go:32-39 | the workers before `index` make `index*(numRolls/numCPUs) + min(index, numRolls%numCPUs)` rolls together, or none for a negative count |
| LotsaDice.PartitionExact | lotsadice.go:18-39 | over all workers exactly `numRolls` rolls are made (none for a negative count): no roll lost or duplicated |
| LotsaDice.RollsBeforeBounded | lotsadice.go:32-39 | every worker's slice of draws ends within the first `numRolls` draws |
| LotsaDice.RollWorker | lotsadice.go:33-46 | a goroutine computes `rollsForThisCPU` from the captured quotient and remainder and returns the sum of that many rolls, which lies in `[k, k*abs(dieSize)]` |
| LotsaDice.LaunchWorker | lotsadice.go:32-46 | goroutine `i` started on its own slice of the draws sends the sum of that slice's rolls, and the rolls before the next slice are those before its own plus its subtotal |
| LotsaDice.SubtotalBounds | lotsadice.go:40-45 | a worker's subtotal lies in `[Performed(i), Performed(i)*abs(dieSize)]` |
| LotsaDice.SubtotalsBounds | lotsadice.go:32-47 | every worker's subtotal lies in `[Performed(i), Performed(i)*abs(dieSize)]` |
| LotsaDice.FanOut | lotsadice.go:26-47 | one subtotal per CPU, subtotal `i` being the sum of worker `i`'s own `Performed(i)` rolls on its own slice of the draws and lying in `[Performed(i), Performed(i)*abs(dieSize)]`; together they add up to the rolls of the first `numRolls` draws exactly once |
| LotsaDice.FanIn | lotsadice.go:49-53 | `numCPUs` receives, each taking any pending subtotal, total the sum of all subtotals |
| LotsaDice.RollDice | lotsadice.go:9-56 | the total is the sum of the rolls of the first `numRolls` draws, whatever `numCPUs` and the receive order; it lies in `[numRolls, numRolls*abs(dieSize)]`; it is 0 for `numRolls <= 0` and `numRolls` for a one-sided die |
| GoStrings.Split | main.go:43 | `strings.Split` yields one more piece than separators, no piece holds the separator, and joining the pieces gives the input back |
| GoStrings.SplitWhole | main.go:43 | a string without the separator is a single piece |
| GoStrings.SplitExtend | main.go:43 | appending a separator and a separator-free piece appends that piece |
| GoStrings.SplitJoin | main.go:43 | splitting undoes joining separator-free pieces |
| GoStrings.TwoPiecesIffOneSeparator | main.go:43-45 | the split gives exactly two pieces if and only if there is exactly one `d` |
| GoStrconv.Atoi | main.go:50-57 | `strconv.Atoi` refuses as a syntax error exactly the strings that are not an optional `+` or `-` followed by one or more digits; an accepted string's value is the signed value of its digits and fits in 64 bits |
| GoStrconv.AtoiSignedDigits | main.go:50-57 | every optional sign followed by one or more digits is read as the signed value of the digits when it fits in 64 bits, leading zeros and `+` included, and refused as out of range otherwise |
| GoStrconv.Digits | main.go:50-57 | the decimal digits of a natural, with no leading zero |
| GoStrconv.DigitsValueOfDigits | main.go:50-57 | reading back the digits of `n` gives `n` |
| GoStrconv.AtoiFormatInt | main.go:50-57 | `Atoi` reads back every 64-bit integer as `Itoa` writes it |
| Cli.ParseArgs | main.go:36-61 | anything but one argument is refused; the argument is refused as malformed if and only if it does not hold exactly one `d`; accepted values are 64-bit |
| Cli.ParsePieces | main.go:43-61 | for `a + "d" + b`: accepted with `Atoi`'s values if both pieces are numeric, otherwise the first non-numeric piece is reported |
| Cli.ParseSound | main.go:43-61 | an accepted argument is `a + "d" + b` with `Atoi(a)` and `Atoi(b)` the two values |
| Cli.ParseFormatted | main.go:43-61 | every pair of 64-bit integers written as `"NdM"` is accepted with those values, zero and negative ones included |
| Cli.OccursIffMember | main.go:64-72 | a total occurs a positive number of times if and only if it is among the totals |
| Cli.Totals | main.go:64-65 | one trial total per random stream |
| Cli.TotalsSnoc | main.go:64-65 | one more trial appends its total to the trial totals |
| Cli.PerformRolls | main.go:77-80 | `performRolls` is `rollDice`: the same total and the same bounds |
| Cli.RunTrials | main.go:64-72 | the table's keys are exactly the totals seen, each with its number of occurrences; with `numRolls >= 0` every key lies in `[numRolls, numRolls*abs(dieSize)]`; no trials leave the table empty |
| Cli.RecordTotal | main.go:66-70 | the `exists`/else update increments that total's count (from zero if absent), leaves every other key alone and keeps the table the tally of the totals so far |
| Cli.Insert | main.go:89 | inserting into an ascending sequence keeps it ascending and adds exactly that element |
| Cli.SortInts | main.go:89 | `sort.Ints` returns an ascending permutation of its input |
| Cli.DistinctByMultiset | main.go:86-89 | a sequence has no repeats exactly when no element occurs twice in its multiset |
| Cli.DistinctPermutation | main.go:86-89 | sorting keys without repeats leaves them without repeats |
| Cli.SameElements | main.go:89 | a permutation has the same length and the same elements |
| Cli.CollectKeys | main.go:83-88 | ranging over the map collects every key exactly once, in any order |
| Cli.ListRows | main.go:91-93 | one `Sum,Occurrences` row per sorted key, carrying that key's count |
| Cli.SortMap | main.go:82-97 | for `"sum"`, the rows hold every key of the table exactly once, in strictly ascending order, each with its count; any other sort type gives only the unsupported message |
| Cli.RowsTotalIsTally | main.go:82-97 | if each row carries its sum's number of occurrences, the rows' counts add up to the trials they cover |
| Cli.TallyAppend | main.go:64-72 | one more trial raises the covered count by the number of rows with its total |
| Cli.HitsOnce | main.go:91-93 | with strictly ascending sums, a total appears on at most one row |
| Cli.TallyCovers | main.go:64-72 | rows with distinct sums covering every total cover every trial exactly once |
| Cli.ListingCountsTrials | main.go:64-97 | the occurrence counts printed by `sortMap` add up to the number of trials |
| Cli.ListingIsTally | main.go:64-97 | the `sortMap` listing of the tally of the totals has strictly ascending sums, each with its number of occurrences, and a row for a sum exactly when some trial produced it |
| Cli.TallyRolls | main.go:64-74 | for `"sum"`, the rows are that tally listing of the trial totals, their counts add up to the number of trials, and with `numRolls >= 0` every sum lies in `[numRolls, numRolls*abs(dieSize)]`; any other sort type gives only the unsupported result naming that sort type |
| Cli.Run | main.go:28-75 | a refused argument is a usage error; it crashes with a division by zero if and only if the die size is 0 and a roll is made; every other accepted argument yields a listing: the unsupported result naming the sort type, or, for `"sum"`, it lists the trial totals' tally: strictly ascending sums, each with its number of occurrences, a row exactly for each total seen, counts adding up to the repeat count and sums in `[numRolls, numRolls*abs(dieSize)]` |

## Left out

- Goroutines and the channel: the workers run one after another, and the nondeterministic receive stands for the channel's arrival order. Scheduling, blocking and the channel's capacity are not modelled.
- `runtime.NumCPU()` is not modelled; the CPU count is the parameter `numCPUs >= 1`.
- `rand.Seed(time.Now().UnixNano())` and `rand.Int()` are not modelled. Each trial's draws are an input sequence of naturals, consumed in contiguous slices per worker. In Go the workers draw from one shared source in a scheduling-dependent interleaving; for arbitrary draws this only relabels which draw goes to which roll.
- LotsaDice.RollDice: 64-bit wrap-around of the running totals is not modelled; totals are unbounded integers. Overflow needs `numRolls * abs(dieSize)` beyond 2^63 - 1.
- LotsaDice.RollDice: requires a non-zero die size when rolls are made. The division-by-zero crash is modelled one level up, in `Cli.Run`.
- Flag parsing (`-repeat`, `-sort` and their defaults), all printing, and `os.Exit` are not modelled. The flag values are parameters, a refused argument is an `Err` value, and the printed listing is the returned rows.
- GoStrconv.Atoi: the error kind is not faithful in one case. For a malformed string whose digit prefix already overflows 64 bits, Go reports a range error, while the model reports a syntax error. `main` treats every error the same way, so the outcome does not change.
- Go's `int` is taken as 64 bits wide (`GoArith.MinInt64`, `GoArith.MaxInt64`); 32-bit platforms, where `strconv.Atoi` refuses values such as `"3000000000d6"`, are not modelled.
- `GoStrings.Split` is modelled only for the one-character separator `"d"` that `main` uses.
- The `"count"` sort type is not a separate case: the code has none, and prints the unsupported-sort message for it.
