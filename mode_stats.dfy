/**
 * The mode-selection statistics: a `statistics` table of per-mode counters
 * and a `history` table of selections, with the four operations the
 * statistics endpoints run against them (initialise, read, record, reset).
 * The three copies of this machine in the repository run the same SQL; the
 * tables are modelled as sequences of rows in insertion (rowid) order.
 */
module ModeStats {
  import opened Wrappers

  /** A row of the `statistics` table. */
  datatype StatRow = StatRow(mode: string, count: int)

  /** A row of the `history` table (its autoincrement id is its position). */
  datatype HistoryEntry = HistoryEntry(userId: string, mode: string, timestamp: string)

  /** What `get_statistics` returns: the counts dictionary and the history list. */
  datatype Statistics = Statistics(counts: map<string, int>, history: seq<HistoryEntry>)

  /** Result of a record request: the fresh statistics, or 400 "Invalid mode". */
  datatype RecordOutcome = Recorded(stats: Statistics) | InvalidMode

  /** The most history rows `get_statistics` returns (`LIMIT 100`). */
  const HistoryLimit := 100

  /** The modes a selection may name. */
  predicate IsMode(mode: Option<string>)
  {
    mode == Some("chill") || mode == Some("action")
  }

  // ---------------------------------------------------------------------------
  // Reference definitions over the table rows
  // ---------------------------------------------------------------------------

  /** Sum of all stored counts. */
  function SumCounts(rows: seq<StatRow>): int
  {
    if rows == [] then 0 else SumCounts(rows[..|rows| - 1]) + rows[|rows| - 1].count
  }

  /** The count of the last row naming `mode`, or 0 when no row does. */
  function LastCount(rows: seq<StatRow>, mode: string): int
  {
    if rows == [] then 0
    else if rows[|rows| - 1].mode == mode then rows[|rows| - 1].count
    else LastCount(rows[..|rows| - 1], mode)
  }

  /** How many rows name `mode`. */
  function Occurrences(rows: seq<StatRow>, mode: string): nat
  {
    if rows == [] then 0
    else Occurrences(rows[..|rows| - 1], mode) + (if rows[|rows| - 1].mode == mode then 1 else 0)
  }

  /** No row is named `total`, so no row can overwrite the running total. */
  predicate NoTotalRow(rows: seq<StatRow>)
  {
    forall i :: 0 <= i < |rows| ==> rows[i].mode != "total"
  }

  /** The seeded table: one row per mode, inserted chill first. */
  predicate Seeded(rows: seq<StatRow>)
  {
    |rows| == 2 && rows[0].mode == "chill" && rows[1].mode == "action"
  }

  // ---------------------------------------------------------------------------
  // The SQL statements, on rows
  // ---------------------------------------------------------------------------

  /** `init_rpg_stats`: insert chill = 0 and action = 0 only into an empty table. */
  function SeedIfEmpty(rows: seq<StatRow>): (r: seq<StatRow>)
    ensures rows == [] ==> Seeded(r) && r[0].count == 0 && r[1].count == 0
    ensures rows != [] ==> r == rows
  {
    if rows == [] then [StatRow("chill", 0), StatRow("action", 0)] else rows
  }

  /** `UPDATE statistics SET count = count + 1 WHERE mode = ?` */
  function IncrementMode(rows: seq<StatRow>, mode: string): (r: seq<StatRow>)
    ensures |r| == |rows|
    ensures forall i :: 0 <= i < |rows| ==> r[i].mode == rows[i].mode
    ensures forall i :: 0 <= i < |rows| && rows[i].mode == mode ==> r[i].count == rows[i].count + 1
    ensures forall i :: 0 <= i < |rows| && rows[i].mode != mode ==> r[i] == rows[i]
  {
    seq(|rows|, i requires 0 <= i < |rows| =>
      if rows[i].mode == mode then StatRow(rows[i].mode, rows[i].count + 1) else rows[i])
  }

  /** `UPDATE statistics SET count = 0` */
  function ZeroCounts(rows: seq<StatRow>): (r: seq<StatRow>)
    ensures |r| == |rows|
    ensures forall i :: 0 <= i < |rows| ==> r[i] == StatRow(rows[i].mode, 0)
  {
    seq(|rows|, i requires 0 <= i < |rows| => StatRow(rows[i].mode, 0))
  }

  /** The loop of `get_statistics`, row by row: `stats[mode] = count; stats['total'] += count`. */
  function Accumulate(rows: seq<StatRow>): (r: map<string, int>)
    ensures "chill" in r && "action" in r && "total" in r
  {
    if rows == [] then map["chill" := 0, "action" := 0, "total" := 0]
    else
      var before := Accumulate(rows[..|rows| - 1]);
      var row := rows[|rows| - 1];
      var set1 := before[row.mode := row.count];
      set1["total" := set1["total"] + row.count]
  }

  /** `ORDER BY id DESC`: the history newest first. */
  function Reversed(h: seq<HistoryEntry>): (r: seq<HistoryEntry>)
    ensures |r| == |h|
    ensures forall k :: 0 <= k < |h| ==> r[k] == h[|h| - 1 - k]
  {
    if h == [] then [] else [h[|h| - 1]] + Reversed(h[..|h| - 1])
  }

  /** `ORDER BY id DESC LIMIT 100` */
  function LatestFirst(h: seq<HistoryEntry>): (r: seq<HistoryEntry>)
    ensures |r| <= HistoryLimit
    ensures |r| == if |h| < HistoryLimit then |h| else HistoryLimit
    ensures forall k :: 0 <= k < |r| ==> r[k] == h[|h| - 1 - k]
  {
    var all := Reversed(h);
    if |all| <= HistoryLimit then all else all[..HistoryLimit]
  }

  // ---------------------------------------------------------------------------
  // What the statistics report means
  // ---------------------------------------------------------------------------

  /** Without a row named `total`, the reported total is the sum of all stored counts. */
  lemma {:induction false} AccumulateTotal(rows: seq<StatRow>)
    requires NoTotalRow(rows)
    ensures Accumulate(rows)["total"] == SumCounts(rows)
  {
    if rows != [] {
      AccumulateTotal(rows[..|rows| - 1]);
    }
  }

  /**
   * Every other mode reports the count of its last row; `chill` and `action`
   * are reported even without a row, at 0; other modes only with a row.
   */
  lemma {:induction false} AccumulateMode(rows: seq<StatRow>, mode: string)
    requires mode != "total"
    ensures mode in Accumulate(rows) <==> mode == "chill" || mode == "action" || Occurrences(rows, mode) > 0
    ensures mode in Accumulate(rows) ==> Accumulate(rows)[mode] == LastCount(rows, mode)
  {
    if rows != [] {
      AccumulateMode(rows[..|rows| - 1], mode);
    }
  }

  /** Incrementing a mode raises the sum by the number of rows naming it. */
  lemma {:induction false} IncrementSum(rows: seq<StatRow>, mode: string)
    ensures SumCounts(IncrementMode(rows, mode)) == SumCounts(rows) + Occurrences(rows, mode)
  {
    if rows != [] {
      var init := rows[..|rows| - 1];
      assert IncrementMode(rows, mode)[..|rows| - 1] == IncrementMode(init, mode);
      IncrementSum(init, mode);
    }
  }

  /** Incrementing a mode raises its last count by one and leaves every other mode's count alone. */
  lemma {:induction false} IncrementLastCount(rows: seq<StatRow>, mode: string, other: string)
    requires Occurrences(rows, mode) > 0
    ensures LastCount(IncrementMode(rows, mode), mode) == LastCount(rows, mode) + 1
    ensures other != mode ==> LastCount(IncrementMode(rows, mode), other) == LastCount(rows, other)
  {
    var init := rows[..|rows| - 1];
    assert IncrementMode(rows, mode)[..|rows| - 1] == IncrementMode(init, mode);
    if rows[|rows| - 1].mode != mode {
      IncrementLastCount(init, mode, other);
    } else if other != mode {
      IncrementOther(init, mode, other);
    }
  }

  /** Incrementing `mode` leaves the last count of every other mode alone. */
  lemma {:induction false} IncrementOther(rows: seq<StatRow>, mode: string, other: string)
    requires other != mode
    ensures LastCount(IncrementMode(rows, mode), other) == LastCount(rows, other)
  {
    if rows != [] {
      var init := rows[..|rows| - 1];
      assert IncrementMode(rows, mode)[..|rows| - 1] == IncrementMode(init, mode);
      IncrementOther(init, mode, other);
    }
  }

  /** After zeroing, the sum is 0 and every mode's last count is 0. */
  lemma {:induction false} ZeroCountsFacts(rows: seq<StatRow>, mode: string)
    ensures SumCounts(ZeroCounts(rows)) == 0
    ensures LastCount(ZeroCounts(rows), mode) == 0
  {
    if rows != [] {
      assert ZeroCounts(rows)[..|rows| - 1] == ZeroCounts(rows[..|rows| - 1]);
      ZeroCountsFacts(rows[..|rows| - 1], mode);
    }
  }

  /** Seeding is idempotent: a second initialisation changes nothing. */
  lemma SeedIdempotent(rows: seq<StatRow>)
    ensures SeedIfEmpty(SeedIfEmpty(rows)) == SeedIfEmpty(rows)
    ensures SeedIfEmpty(rows) != []
  {
  }

  // ---------------------------------------------------------------------------
  // The database
  // ---------------------------------------------------------------------------

  class StatsDb {
    var statistics: seq<StatRow>
    var history: seq<HistoryEntry>

    /** The tables as `CREATE TABLE IF NOT EXISTS` first leaves them: empty. */
    constructor()
      ensures statistics == [] && history == []
    {
      statistics := [];
      history := [];
    }

    /**
     * The `statistics` table is either still empty or holds exactly the two
     * seeded rows: `init_rpg_stats` inserts both at once, and no other
     * statement inserts or deletes a statistics row.
     */
    ghost predicate Valid()
      reads this
    {
      statistics == [] || Seeded(statistics)
    }

    /** What a `get_statistics` call over the current tables returns. */
    function Snapshot(): (s: Statistics)
      reads this
      ensures "chill" in s.counts && "action" in s.counts && "total" in s.counts
      ensures |s.history| <= HistoryLimit
    {
      Statistics(Accumulate(statistics), LatestFirst(history))
    }

    /** `init_rpg_stats`: seed the counters when the table is empty. */
    method Init()
      modifies this
      ensures statistics == SeedIfEmpty(old(statistics))
      ensures history == old(history)
      ensures old(Valid()) ==> Valid()
    {
      if |statistics| == 0 {
        statistics := statistics + [StatRow("chill", 0)];
        statistics := statistics + [StatRow("action", 0)];
      }
    }

    /**
     * `get_statistics`: the counts dictionary built row by row, and the
     * newest 100 history rows newest first. Without a row named `total`
     * the total is the sum of the stored counts.
     */
    method GetStatistics() returns (s: Statistics)
      ensures s == Snapshot()
      ensures NoTotalRow(statistics) ==> s.counts["total"] == SumCounts(statistics)
      ensures |s.history| == if |history| < HistoryLimit then |history| else HistoryLimit
      ensures forall k :: 0 <= k < |s.history| ==> s.history[k] == history[|history| - 1 - k]
    {
      var rows := statistics;
      var stats := map["chill" := 0, "action" := 0, "total" := 0];
      for i := 0 to |rows|
        invariant stats == Accumulate(rows[..i])
      {
        assert rows[..i + 1][..i] == rows[..i];
        var mode := rows[i].mode;
        var count := rows[i].count;
        stats := stats[mode := count];
        stats := stats["total" := stats["total"] + count];
      }
      assert rows[..|rows|] == rows;
      if NoTotalRow(statistics) {
        AccumulateTotal(statistics);
      }
      s := Statistics(stats, LatestFirst(history));
    }

    /**
     * `record_selection`: a mode other than `chill` or `action` (or none) is
     * rejected and nothing changes; otherwise the mode's counter goes up by
     * one, one history row is appended, and the fresh statistics are
     * returned. `userId` defaults to `anonymous`; `timestamp` stands for
     * `datetime.utcnow().isoformat()`.
     */
    method RecordSelection(mode: Option<string>, userId: Option<string>, timestamp: string) returns (r: RecordOutcome)
      modifies this
      ensures !IsMode(mode) ==> r == InvalidMode && statistics == old(statistics) && history == old(history)
      ensures IsMode(mode) ==>
        && statistics == IncrementMode(old(statistics), mode.value)
        && history == old(history) + [HistoryEntry(if userId.Some? then userId.value else "anonymous", mode.value, timestamp)]
        && r == Recorded(Snapshot())
      ensures old(Valid()) ==> Valid()
    {
      if !(mode == Some("chill") || mode == Some("action")) {
        return InvalidMode;
      }
      var user := if userId.Some? then userId.value else "anonymous";
      statistics := IncrementMode(statistics, mode.value);
      history := history + [HistoryEntry(user, mode.value, timestamp)];
      var stats := GetStatistics();
      return Recorded(stats);
    }

    /** `reset_stats`: every counter back to 0 and the history emptied; returns the fresh statistics. */
    method ResetStats() returns (s: Statistics)
      modifies this
      ensures statistics == ZeroCounts(old(statistics))
      ensures history == []
      ensures s == Snapshot()
      ensures old(Valid()) ==> Valid()
    {
      statistics := ZeroCounts(statistics);
      history := [];
      s := GetStatistics();
    }
  }

  // ---------------------------------------------------------------------------
  // The machine's promises on the seeded table
  // ---------------------------------------------------------------------------

  /** On the seeded table the report names every stored count and their sum. */
  lemma SeededReport(rows: seq<StatRow>)
    requires Seeded(rows)
    ensures Accumulate(rows)["chill"] == rows[0].count
    ensures Accumulate(rows)["action"] == rows[1].count
    ensures Accumulate(rows)["total"] == rows[0].count + rows[1].count
    ensures Accumulate(rows).Keys == {"chill", "action", "total"}
  {
    assert rows[..1][..0] == [] && rows[..1] == [rows[0]];
    assert rows[..|rows| - 1] == rows[..1];
    assert SumCounts(rows[..1]) == rows[0].count;
    assert Accumulate(rows[..1]).Keys == {"chill", "action", "total"};
    assert NoTotalRow(rows);
    AccumulateTotal(rows);
  }

  /**
   * Recording a valid mode on the seeded table raises that mode and the
   * total by one and leaves the other mode's count as it was.
   */
  lemma RecordReport(rows: seq<StatRow>, mode: string, other: string)
    requires Seeded(rows)
    requires mode == "chill" || mode == "action"
    requires (other == "chill" || other == "action") && other != mode
    ensures Accumulate(IncrementMode(rows, mode))[mode] == Accumulate(rows)[mode] + 1
    ensures Accumulate(IncrementMode(rows, mode))[other] == Accumulate(rows)[other]
    ensures Accumulate(IncrementMode(rows, mode))["total"] == Accumulate(rows)["total"] + 1
  {
    var inc := IncrementMode(rows, mode);
    assert Seeded(inc);
    SeededReport(rows);
    SeededReport(inc);
  }

  /** After a reset of the seeded table every reported count is 0. */
  lemma ResetReport(rows: seq<StatRow>)
    requires Seeded(rows)
    ensures Accumulate(ZeroCounts(rows)) == map["chill" := 0, "action" := 0, "total" := 0]
  {
    var z := ZeroCounts(rows);
    assert Seeded(z);
    SeededReport(z);
    var m := Accumulate(z);
    assert m["chill"] == 0 && m["action"] == 0 && m["total"] == 0;
    assert m == map["chill" := 0, "action" := 0, "total" := 0];
  }
}
