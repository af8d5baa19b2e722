/**
 * The command-line driver of the dice roller: it reads one `"<rolls>d<sides>"`
 * argument, repeats the roll `repeatTimes` times while tallying how often each
 * total comes up, and lists the tally sorted by sum.
 *
 * Flags, printing and the process exit status are not modelled: the flag
 * values are parameters, a rejected argument is an `Err` value, and the
 * printed listing is a returned sequence of rows.
 */
module Cli {
  import opened GoArith
  import opened Results
  import opened GoStrings
  import opened GoStrconv
  import opened LotsaDice

  // ---------------------------------------------------------------------
  // Parsing the `NdM` argument

  datatype RollSpec = RollSpec(numRolls: int, dieSize: int)

  /** Why the argument was refused; each is a message and exit status 1. */
  datatype UsageError =
    | NeedOneArgument
    | WrongFormat
    | RollsNotNumeric(piece: string)
    | SidesNotNumeric(piece: string)

  /**
   * The argument handling of `main`: exactly one positional argument, split
   * at `d` into exactly two pieces, each of which `Atoi` must accept. The
   * values are passed on as they are: zero and negative counts and sizes are
   * not refused.
   */
  function ParseArgs(args: seq<string>): (r: Result<RollSpec, UsageError>)
    ensures |args| != 1 ==> r == Err(NeedOneArgument)
    ensures |args| == 1 ==> (r == Err(WrongFormat) <==> Count(args[0], 'd') != 1)
    ensures r.Ok? ==> MinInt64 <= r.value.numRolls <= MaxInt64
    ensures r.Ok? ==> MinInt64 <= r.value.dieSize <= MaxInt64
  {
    if |args| != 1 then Err(NeedOneArgument)
    else
      var pair := Split(args[0], 'd');
      if |pair| != 2 then Err(WrongFormat)
      else
        match Atoi(pair[0])
        case Err(_) => Err(RollsNotNumeric(pair[0]))
        case Ok(numRolls) =>
          match Atoi(pair[1])
          case Err(_) => Err(SidesNotNumeric(pair[1]))
          case Ok(dieSize) => Ok(RollSpec(numRolls, dieSize))
  }

  /**
   * For an argument `a + "d" + b` (so exactly one `d`): it is accepted if and
   * only if `Atoi` accepts both `a` and `b`, with their values; otherwise
   * the first piece `Atoi` refuses is reported.
   */
  lemma ParsePieces(a: string, b: string)
    requires 'd' !in a && 'd' !in b
    ensures Atoi(a).Err? ==> ParseArgs([a + "d" + b]) == Err(RollsNotNumeric(a))
    ensures Atoi(a).Ok? && Atoi(b).Err? ==> ParseArgs([a + "d" + b]) == Err(SidesNotNumeric(b))
    ensures Atoi(a).Ok? && Atoi(b).Ok? ==>
      ParseArgs([a + "d" + b]) == Ok(RollSpec(Atoi(a).value, Atoi(b).value))
  {
    assert [a, b][..1] == [a];
    SplitJoin([a, b], 'd');
  }

  /** Whatever is accepted is `a + "d" + b` for pieces that `Atoi` reads as the two values. */
  lemma ParseSound(arg: string, spec: RollSpec)
    requires ParseArgs([arg]) == Ok(spec)
    ensures exists a, b :: arg == a + "d" + b && Atoi(a) == Ok(spec.numRolls) && Atoi(b) == Ok(spec.dieSize)
  {
    var pair := Split(arg, 'd');
    assert pair[..1] == [pair[0]];
    assert arg == Join(pair, 'd') == pair[0] + "d" + pair[1];
  }

  /**
   * Any two 64-bit integers written as `Itoa` writes them, zero and
   * negative ones included, come back unchanged.
   */
  lemma ParseFormatted(numRolls: int, dieSize: int)
    requires MinInt64 <= numRolls <= MaxInt64 && MinInt64 <= dieSize <= MaxInt64
    ensures ParseArgs([FormatInt(numRolls) + "d" + FormatInt(dieSize)]) == Ok(RollSpec(numRolls, dieSize))
  {
    AtoiFormatInt(numRolls);
    AtoiFormatInt(dieSize);
    ParsePieces(FormatInt(numRolls), FormatInt(dieSize));
  }

  // ---------------------------------------------------------------------
  // Repeating the roll and tallying the totals

  /** How many times `x` occurs in `s`. */
  function Occurrences(s: seq<int>, x: int): nat
    decreases |s|
  {
    if s == [] then 0
    else Occurrences(s[..|s| - 1], x) + (if s[|s| - 1] == x then 1 else 0)
  }

  lemma {:induction false} OccursIffMember(s: seq<int>, x: int)
    ensures Occurrences(s, x) > 0 <==> x in s
    decreases |s|
  {
    if s != [] {
      OccursIffMember(s[..|s| - 1], x);
      assert s == s[..|s| - 1] + [s[|s| - 1]];
    }
  }

  /** The total of each trial, one random stream per trial. */
  function Totals(numRolls: int, dieSize: int, streams: seq<seq<nat>>): (ts: seq<int>)
    requires streams == [] || dieSize != 0 || numRolls <= 0
    requires forall i :: 0 <= i < |streams| ==> |streams[i]| >= numRolls
    ensures |ts| == |streams|
    decreases |streams|
  {
    if streams == [] then []
    else
      var n := |streams| - 1;
      Totals(numRolls, dieSize, streams[..n]) + [SumRolls(streams[n][..Max(numRolls, 0)], dieSize)]
  }

  /** `performRolls`: one trial, handed straight to `rollDice`. */
  method PerformRolls(numRolls: int, dieSize: int, numCPUs: int, rs: seq<nat>) returns (total: int)
    requires numCPUs >= 1
    requires dieSize != 0 || numRolls <= 0
    requires |rs| >= numRolls
    ensures total == SumRolls(rs[..Max(numRolls, 0)], dieSize)
    ensures numRolls >= 0 ==> RollRange(numRolls, dieSize, total)
  {
    total := RollDice(numRolls, dieSize, numCPUs, rs);
  }

  /**
   * The repeat loop of `main`: run `repeatTimes` trials and count each total
   * in `resultsTable`. The keys are exactly the totals seen, each counted as
   * often as it came up; with `numRolls >= 0` every key lies in
   * `[numRolls, numRolls * |dieSize|]`.
   */
  method RunTrials(numRolls: int, dieSize: int, numCPUs: int, repeatTimes: int, streams: seq<seq<nat>>)
    returns (resultsTable: map<int, int>)
    requires numCPUs >= 1
    requires repeatTimes <= 0 || dieSize != 0 || numRolls <= 0
    requires |streams| == Max(repeatTimes, 0)
    requires forall i :: 0 <= i < |streams| ==> |streams[i]| >= numRolls
    ensures Counts(resultsTable, Totals(numRolls, dieSize, streams))
    ensures numRolls >= 0 ==> forall t :: t in resultsTable ==> RollRange(numRolls, dieSize, t)
    ensures repeatTimes <= 0 ==> resultsTable == map[]
  {
    resultsTable := map[];
    ghost var totals: seq<int> := [];
    var i := 0;
    while i < repeatTimes
      invariant 0 <= i <= Max(repeatTimes, 0)
      invariant i == 0 ==> resultsTable == map[]
      invariant totals == Totals(numRolls, dieSize, streams[..i])
      invariant Counts(resultsTable, totals)
      invariant numRolls >= 0 ==> forall t :: t in resultsTable ==> RollRange(numRolls, dieSize, t)
    {
      var total := PerformRolls(numRolls, dieSize, numCPUs, streams[i]);
      ghost var before := resultsTable;
      if total in resultsTable {
        resultsTable := resultsTable[total := resultsTable[total] + 1];
      } else {
        resultsTable := resultsTable[total := 1];
      }
      RecordTotal(before, totals, total, resultsTable);
      TotalsSnoc(numRolls, dieSize, streams, i);
      totals := totals + [total];
      i := i + 1;
    }
    assert streams[..i] == streams;
  }

  /** One more stream adds its trial total at the end. */
  lemma TotalsSnoc(numRolls: int, dieSize: int, streams: seq<seq<nat>>, i: nat)
    requires i < |streams|
    requires dieSize != 0 || numRolls <= 0
    requires forall i :: 0 <= i < |streams| ==> |streams[i]| >= numRolls
    ensures Totals(numRolls, dieSize, streams[..i + 1])
      == Totals(numRolls, dieSize, streams[..i]) + [SumRolls(streams[i][..Max(numRolls, 0)], dieSize)]
  {
    assert streams[..i + 1][..i] == streams[..i];
  }

  /** The count of `t` in `table`, zero when `t` is not a key. */
  function CountOf(table: map<int, int>, t: int): int {
    if t in table then table[t] else 0
  }

  /** `table` is the tally of `totals`: its keys are the totals seen, each with its number of occurrences. */
  ghost predicate Counts(table: map<int, int>, totals: seq<int>) {
    && (forall t :: t in table <==> t in totals)
    && (forall t :: t in table ==> table[t] == Occurrences(totals, t))
  }

  /**
   * The `exists`/else branch of the repeat loop increments a count that
   * defaults to zero and leaves every other key alone, so it keeps the
   * table the tally of the totals seen so far.
   */
  lemma RecordTotal(table: map<int, int>, totals: seq<int>, total: int, next: map<int, int>)
    requires next == if total in table then table[total := table[total] + 1] else table[total := 1]
    ensures next.Keys == table.Keys + {total}
    ensures CountOf(next, total) == CountOf(table, total) + 1
    ensures forall k :: k != total ==> CountOf(next, k) == CountOf(table, k)
    ensures Counts(table, totals) ==> Counts(next, totals + [total])
  {
    if Counts(table, totals) {
      var totals' := totals + [total];
      assert totals'[..|totals|] == totals;
      OccursIffMember(totals, total);
      forall t | t in next
        ensures next[t] == Occurrences(totals', t)
      {
      }
    }
  }

  // ---------------------------------------------------------------------
  // Listing the tally

  predicate Ascending(s: seq<int>) {
    forall i, j :: 0 <= i < j < |s| ==> s[i] <= s[j]
  }

  predicate Distinct(s: seq<int>) {
    forall i, j :: 0 <= i < j < |s| ==> s[i] != s[j]
  }

  /** Puts `x` into its place in the ascending `s`. */
  function Insert(x: int, s: seq<int>): (r: seq<int>)
    requires Ascending(s)
    ensures Ascending(r)
    ensures multiset(r) == multiset(s) + multiset{x}
    ensures r[0] == x || (s != [] && r[0] == s[0])
    decreases |s|
  {
    if s == [] || x <= s[0] then [x] + s
    else
      var rest := Insert(x, s[1..]);
      assert s == [s[0]] + s[1..];
      assert s[0] <= rest[0];
      [s[0]] + rest
  }

  /** `sort.Ints`, specified by its result: an ascending permutation of `s`. */
  function SortInts(s: seq<int>): (r: seq<int>)
    ensures Ascending(r)
    ensures multiset(r) == multiset(s)
    decreases |s|
  {
    if s == [] then []
    else
      assert s == [s[0]] + s[1..];
      Insert(s[0], SortInts(s[1..]))
  }

  /** A sequence has no repeated element exactly when no element occurs twice in its multiset. */
  lemma {:induction false} DistinctByMultiset(s: seq<int>)
    ensures Distinct(s) <==> forall x :: multiset(s)[x] <= 1
    decreases |s|
  {
    if s != [] {
      var n := |s| - 1;
      var y := s[n];
      assert s == s[..n] + [y];
      DistinctByMultiset(s[..n]);
      if Distinct(s) {
        assert y !in s[..n];
      }
      if forall x :: multiset(s)[x] <= 1 {
        assert multiset(s)[y] == multiset(s[..n])[y] + 1;
        assert forall x :: multiset(s[..n])[x] <= multiset(s)[x];
      }
    }
  }

  /** Rearranging a sequence without repeats leaves it without repeats. */
  lemma DistinctPermutation(s: seq<int>, t: seq<int>)
    requires multiset(s) == multiset(t) && Distinct(s)
    ensures Distinct(t)
  {
    DistinctByMultiset(s);
    DistinctByMultiset(t);
  }

  /** One printed line `"%d,%d"`: a sum and how many trials produced it. */
  datatype Row = Row(sum: int, occurrences: int)

  /** What `sortMap` prints: the rows under `Sum,Occurrences`, or the unsupported-sort message. */
  datatype Listing = Rows(rows: seq<Row>) | Unsupported(sortType: string)

  /**
   * The `for key := range resultsTable` loop of `sortMap`: every key once,
   * in whatever order Go's map iteration visits them.
   */
  method CollectKeys(resultsTable: map<int, int>) returns (keys: seq<int>)
    ensures Distinct(keys)
    ensures forall k :: k in keys <==> k in resultsTable
    ensures |keys| == |resultsTable|
  {
    keys := [];
    var remaining := resultsTable.Keys;
    while remaining != {}
      invariant remaining <= resultsTable.Keys
      invariant Distinct(keys)
      invariant forall k :: k in keys <==> k in resultsTable && k !in remaining
      invariant |keys| + |remaining| == |resultsTable|
      decreases remaining
    {
      HasKey(remaining);
      var key :| key in remaining;
      keys := keys + [key];
      remaining := remaining - {key};
    }
  }

  /** A non-empty set has an element (the witness for the pick above). */
  lemma HasKey(keys: set<int>)
    requires keys != {}
    ensures exists k :: k in keys
  {
    if forall k :: k !in keys {
      assert false;
    }
  }

  /** Sequences with the same multiset have the same elements. */
  lemma SameElements(s: seq<int>, t: seq<int>)
    requires multiset(s) == multiset(t)
    ensures |s| == |t|
    ensures forall x :: x in s <==> x in t
  {
    assert |multiset(s)| == |multiset(t)|;
    forall x
      ensures x in s <==> x in t
    {
      assert x in s <==> x in multiset(s);
      assert x in t <==> x in multiset(t);
    }
  }

  /** The printing loop of `sortMap`: one row per sorted key, with the key's count. */
  method ListRows(resultsTable: map<int, int>, keys: seq<int>) returns (rows: seq<Row>)
    requires forall i :: 0 <= i < |keys| ==> keys[i] in resultsTable
    ensures |rows| == |keys|
    ensures forall i :: 0 <= i < |keys| ==> rows[i].sum == keys[i] && rows[i].occurrences == resultsTable[keys[i]]
  {
    rows := [];
    for i := 0 to |keys|
      invariant |rows| == i
      invariant forall j :: 0 <= j < i ==> rows[j].sum == keys[j] && rows[j].occurrences == resultsTable[keys[j]]
    {
      rows := rows + [Row(keys[i], resultsTable[keys[i]])];
    }
  }

  /**
   * `sortMap`: with sort type `"sum"`, every key of the table exactly once,
   * in strictly ascending order, each with its count; with any other sort
   * type, no rows.
   */
  method SortMap(resultsTable: map<int, int>, sortType: string) returns (listing: Listing)
    ensures sortType == "sum" <==> listing.Rows?
    ensures sortType != "sum" ==> listing == Unsupported(sortType)
    ensures listing.Rows? ==> |listing.rows| == |resultsTable|
    ensures listing.Rows? ==>
      forall i, j :: 0 <= i < j < |listing.rows| ==> listing.rows[i].sum < listing.rows[j].sum
    ensures listing.Rows? ==> forall i :: 0 <= i < |listing.rows| ==>
      listing.rows[i].sum in resultsTable && listing.rows[i].occurrences == resultsTable[listing.rows[i].sum]
    ensures listing.Rows? ==> forall k :: k in resultsTable ==>
      exists i :: 0 <= i < |listing.rows| && listing.rows[i].sum == k
  {
    if sortType == "sum" {
      var keys := CollectKeys(resultsTable);
      var sorted := SortInts(keys);
      DistinctPermutation(keys, sorted);
      SameElements(keys, sorted);
      var rows := ListRows(resultsTable, sorted);
      forall k | k in resultsTable
        ensures exists i :: 0 <= i < |rows| && rows[i].sum == k
      {
        var i :| 0 <= i < |sorted| && sorted[i] == k;
        assert rows[i].sum == k;
      }
      listing := Rows(rows);
    } else {
      listing := Unsupported(sortType);
    }
  }

  // ---------------------------------------------------------------------
  // Every trial is accounted for

  /** The sum of the occurrence counts of the rows. */
  function RowsTotal(rows: seq<Row>): int
    decreases |rows|
  {
    if rows == [] then 0 else RowsTotal(rows[..|rows| - 1]) + rows[|rows| - 1].occurrences
  }

  /** The number of trials in `totals` whose total is the sum of one of the rows. */
  function Tally(rows: seq<Row>, totals: seq<int>): int
    decreases |rows|
  {
    if rows == [] then 0
    else Tally(rows[..|rows| - 1], totals) + Occurrences(totals, rows[|rows| - 1].sum)
  }

  /** How many rows carry the sum `t`. */
  function Hits(rows: seq<Row>, t: int): nat
    decreases |rows|
  {
    if rows == [] then 0
    else Hits(rows[..|rows| - 1], t) + (if rows[|rows| - 1].sum == t then 1 else 0)
  }

  lemma {:induction false} RowsTotalIsTally(rows: seq<Row>, totals: seq<int>)
    requires forall i :: 0 <= i < |rows| ==> rows[i].occurrences == Occurrences(totals, rows[i].sum)
    ensures RowsTotal(rows) == Tally(rows, totals)
    decreases |rows|
  {
    if rows != [] {
      RowsTotalIsTally(rows[..|rows| - 1], totals);
    }
  }

  lemma {:induction false} TallyAppend(rows: seq<Row>, totals: seq<int>, t: int)
    ensures Tally(rows, totals + [t]) == Tally(rows, totals) + Hits(rows, t)
    decreases |rows|
  {
    if rows != [] {
      TallyAppend(rows[..|rows| - 1], totals, t);
      assert (totals + [t])[..|totals|] == totals;
    }
  }

  /** With distinct sums, a sum that some row carries is carried by exactly one row. */
  lemma {:induction false} HitsOnce(rows: seq<Row>, t: int)
    requires forall i, j :: 0 <= i < j < |rows| ==> rows[i].sum != rows[j].sum
    ensures Hits(rows, t) == if exists i :: 0 <= i < |rows| && rows[i].sum == t then 1 else 0
    decreases |rows|
  {
    if rows != [] {
      var n := |rows| - 1;
      HitsOnce(rows[..n], t);
      if rows[n].sum == t {
        assert forall i :: 0 <= i < n ==> rows[..n][i].sum != t;
      }
    }
  }

  /**
   * Rows with distinct sums that cover every trial's total, each with that
   * total's number of occurrences, account for every trial exactly once.
   */
  lemma {:induction false} ListingCountsTrials(rows: seq<Row>, totals: seq<int>)
    requires forall i, j :: 0 <= i < j < |rows| ==> rows[i].sum != rows[j].sum
    requires forall i :: 0 <= i < |rows| ==> rows[i].occurrences == Occurrences(totals, rows[i].sum)
    requires forall t :: t in totals ==> exists i :: 0 <= i < |rows| && rows[i].sum == t
    ensures RowsTotal(rows) == |totals|
  {
    RowsTotalIsTally(rows, totals);
    TallyCovers(rows, totals);
  }

  lemma {:induction false} TallyCovers(rows: seq<Row>, totals: seq<int>)
    requires forall i, j :: 0 <= i < j < |rows| ==> rows[i].sum != rows[j].sum
    requires forall t :: t in totals ==> exists i :: 0 <= i < |rows| && rows[i].sum == t
    ensures Tally(rows, totals) == |totals|
    decreases |totals|
  {
    if totals == [] {
      TallyEmpty(rows);
    } else {
      var n := |totals| - 1;
      assert totals == totals[..n] + [totals[n]];
      assert forall t :: t in totals[..n] ==> t in totals;
      assert totals[n] in totals;
      TallyCovers(rows, totals[..n]);
      TallyAppend(rows, totals[..n], totals[n]);
      HitsOnce(rows, totals[n]);
    }
  }

  lemma {:induction false} TallyEmpty(rows: seq<Row>)
    ensures Tally(rows, []) == 0
    decreases |rows|
  {
    if rows != [] {
      TallyEmpty(rows[..|rows| - 1]);
    }
  }

  /**
   * `rows` is what `main` prints for the trial totals `totals`: strictly
   * ascending sums, each with its number of occurrences, and a row for a
   * sum exactly when some trial produced it.
   */
  ghost predicate TallyListing(rows: seq<Row>, totals: seq<int>) {
    && (forall i, j :: 0 <= i < j < |rows| ==> rows[i].sum < rows[j].sum)
    && (forall i :: 0 <= i < |rows| ==> rows[i].occurrences == Occurrences(totals, rows[i].sum))
    && (forall t :: t in totals <==> exists i :: 0 <= i < |rows| && rows[i].sum == t)
  }

  /** The `sortMap` listing of the tally of `totals` is the tally listing of `totals`. */
  lemma ListingIsTally(table: map<int, int>, totals: seq<int>, rows: seq<Row>)
    requires Counts(table, totals)
    requires forall i, j :: 0 <= i < j < |rows| ==> rows[i].sum < rows[j].sum
    requires forall i :: 0 <= i < |rows| ==> rows[i].sum in table && rows[i].occurrences == table[rows[i].sum]
    requires forall k :: k in table ==> exists i :: 0 <= i < |rows| && rows[i].sum == k
    ensures TallyListing(rows, totals)
  {
  }

  // ---------------------------------------------------------------------
  // The whole command

  /**
   * The rest of `main` once the argument is read: the repeat loop and the
   * `sortMap` call. For `"sum"` the rows are the tally listing of the trial
   * totals, their counts add up to the number of trials, and with
   * `numRolls >= 0` every sum lies in `[numRolls, numRolls * |dieSize|]`.
   */
  method TallyRolls(numRolls: int, dieSize: int, numCPUs: int, repeatTimes: int, sortType: string,
                    streams: seq<seq<nat>>)
    returns (listing: Listing)
    requires numCPUs >= 1
    requires repeatTimes <= 0 || dieSize != 0 || numRolls <= 0
    requires |streams| == Max(repeatTimes, 0)
    requires forall i :: 0 <= i < |streams| ==> |streams[i]| >= numRolls
    ensures listing.Rows? <==> sortType == "sum"
    ensures !listing.Rows? ==> listing == Unsupported(sortType)
    ensures listing.Rows? ==> TallyListing(listing.rows, Totals(numRolls, dieSize, streams))
    ensures listing.Rows? ==> RowsTotal(listing.rows) == Max(repeatTimes, 0)
    ensures listing.Rows? && numRolls >= 0 ==>
      forall i :: 0 <= i < |listing.rows| ==> numRolls <= listing.rows[i].sum <= numRolls * Abs(dieSize)
  {
    var resultsTable := RunTrials(numRolls, dieSize, numCPUs, repeatTimes, streams);
    listing := SortMap(resultsTable, sortType);
    if listing.Rows? {
      ListingIsTally(resultsTable, Totals(numRolls, dieSize, streams), listing.rows);
      ListingCountsTrials(listing.rows, Totals(numRolls, dieSize, streams));
    }
  }

  /** How a run ends without a listing. */
  datatype Failure =
    | Usage(reason: UsageError)
    | DivideByZeroPanic  // `rand.Int()%dieSize` with `dieSize == 0`

  /**
   * `main` after flag parsing: parse the argument, run the trials and list
   * the tally. A zero die size crashes the program as soon as a roll is made;
   * every other accepted argument produces a listing.
   * The listed counts add up to the number of trials, and with a
   * non-negative roll count every listed sum lies in
   * `[numRolls, numRolls * |dieSize|]`.
   */
  method Run(args: seq<string>, repeatTimes: int, sortType: string, numCPUs: int, streams: seq<seq<nat>>)
    returns (outcome: Result<Listing, Failure>)
    requires numCPUs >= 1
    requires |streams| == Max(repeatTimes, 0)
    requires ParseArgs(args).Ok? ==>
      forall i :: 0 <= i < |streams| ==> |streams[i]| >= ParseArgs(args).value.numRolls
    ensures ParseArgs(args).Err? ==> outcome == Err(Usage(ParseArgs(args).error))
    ensures ParseArgs(args).Ok? ==>
      (outcome == Err(DivideByZeroPanic) <==>
        ParseArgs(args).value.dieSize == 0 && ParseArgs(args).value.numRolls > 0 && repeatTimes > 0)
    ensures outcome.Ok? ==> ParseArgs(args).Ok?
    ensures ParseArgs(args).Ok? && outcome.Err? ==> outcome == Err(DivideByZeroPanic)
    ensures outcome.Ok? && !outcome.value.Rows? ==> outcome.value == Unsupported(sortType)
    ensures outcome.Ok? ==> (outcome.value.Rows? <==> sortType == "sum")
    ensures outcome.Ok? && outcome.value.Rows? ==>
      TallyListing(outcome.value.rows,
        Totals(ParseArgs(args).value.numRolls, ParseArgs(args).value.dieSize, streams))
    ensures outcome.Ok? && outcome.value.Rows? ==> RowsTotal(outcome.value.rows) == Max(repeatTimes, 0)
    ensures outcome.Ok? && outcome.value.Rows? && ParseArgs(args).value.numRolls >= 0 ==>
      forall i :: 0 <= i < |outcome.value.rows| ==>
        ParseArgs(args).value.numRolls <= outcome.value.rows[i].sum
        <= ParseArgs(args).value.numRolls * Abs(ParseArgs(args).value.dieSize)
  {
    var parsed := ParseArgs(args);
    if parsed.Err? {
      return Err(Usage(parsed.error));
    }
    var numRolls, dieSize := parsed.value.numRolls, parsed.value.dieSize;
    if dieSize == 0 && numRolls > 0 && repeatTimes > 0 {
      return Err(DivideByZeroPanic);
    }
    var listing := TallyRolls(numRolls, dieSize, numCPUs, repeatTimes, sortType, streams);
    outcome := Ok(listing);
  }
}
