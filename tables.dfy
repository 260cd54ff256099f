/**
 * The four tables of the tracker, held in memory: `init_db`'s seeding of
 * `Lines` and `Machines` (production_tracker.py:85-91) and the "Submit Activity"
 * branch of `app` that adds an operator and an activity log
 * (production_tracker.py:121-145).
 */
module Tables {
  import opened Wrappers
  import opened Text
  import opened ClockTime

  datatype MachineRow = MachineRow(machineId: nat, lineId: string, machineName: string, machineType: string)

  datatype OperatorRow = OperatorRow(operatorId: nat, name: string, assignedLine: string)

  /** A row of `ActivityLogs`; a NULL part description is `None`. */
  datatype LogRow = LogRow(
    logId: nat,
    lineId: string,
    machineId: nat,
    operatorId: nat,
    activityType: string,
    partDescription: Option<string>,
    startTime: string,
    endTime: string,
    durationMinutes: nat,
    notes: string)

  /** `init_db` seeds lines `R1` to `R22`. */
  const LineCount: nat := 22

  /** The predefined machine list of `init_db`, as (machine_name, machine_type). */
  const MachineCatalog: seq<(string, string)> := [
    ("Rougher Roller Turner", "Rougher"),
    ("Rougher Pump", "Rougher"),
    ("Rougher Body Grinder", "Rougher"),
    ("Rougher Marposs Gauging System", "Rougher"),
    ("Rougher Conveyor", "Rougher"),
    ("Semi-Finisher Pump", "Semi-Finisher"),
    ("Semi-Finisher Marposs Gauging System", "Semi-Finisher"),
    ("Semi-Finisher Body Grinder", "Semi-Finisher"),
    ("Semi-Finisher Conveyor", "Semi-Finisher"),
    ("SEG", "Semi-Finisher"),
    ("Finisher Body Grinder", "Finisher"),
    ("Finisher Pump", "Finisher"),
    ("Finisher Marposs Gauging System", "Finisher"),
    ("Finisher Conveyor", "Finisher"),
    ("Honer", "Finisher"),
    ("ECT", "Finisher"),
    ("IBG", "Finisher"),
    ("Vision System", "Inspection"),
    ("Sealer Unit", "Finisher")
  ]

  const MachinesPerLine: nat := 19

  /** Rows one run of `init_db` appends to `Machines`. */
  const SeededMachineCount: nat := 418

  /** `f"R{i}"` */
  function LineId(i: nat): (id: string)
    ensures |id| >= 2 && id[0] == 'R' && id[1..] == Decimal(i)
  {
    "R" + Decimal(i)
  }

  /** `f"Production Line {i}"` */
  function LineDescription(i: nat): (d: string)
    ensures |d| > 16 && d[..16] == "Production Line " && d[16..] == Decimal(i)
  {
    "Production Line " + Decimal(i)
  }

  lemma LineIdInjective(i: nat, j: nat)
    requires LineId(i) == LineId(j)
    ensures i == j
  {
    assert LineId(i)[1..] == Decimal(i) && LineId(j)[1..] == Decimal(j);
    DecimalInjective(i, j);
  }

  /** The `Lines` rows offered by the rounds `1` to `n - 1` of the seeding loop. */
  function SeedLinesBelow(n: nat): map<string, string> {
    if n <= 1 then map[] else SeedLinesBelow(n - 1)[LineId(n - 1) := LineDescription(n - 1)]
  }

  /** Rounds `1` to `n - 1` offer exactly the lines `R1` to `R{n-1}`, each with its own description. */
  lemma {:induction false} SeedLinesBelowHas(n: nat, j: nat)
    ensures LineId(j) in SeedLinesBelow(n) <==> 1 <= j < n
    ensures 1 <= j < n ==> SeedLinesBelow(n)[LineId(j)] == LineDescription(j)
  {
    if n > 1 {
      SeedLinesBelowHas(n - 1, j);
      if LineId(j) == LineId(n - 1) {
        LineIdInjective(j, n - 1);
      }
    }
  }

  lemma {:induction false} SeedLinesBelowOnly(n: nat, k: string)
    requires k in SeedLinesBelow(n)
    ensures exists i :: 1 <= i < n && k == LineId(i)
  {
    if k != LineId(n - 1) {
      SeedLinesBelowOnly(n - 1, k);
    }
  }

  /** `R1`..`R22` with their descriptions. */
  function SeedLines(): (m: map<string, string>)
    ensures forall i :: 1 <= i <= LineCount ==> LineId(i) in m && m[LineId(i)] == LineDescription(i)
    ensures forall k :: k in m ==> exists i :: 1 <= i <= LineCount && k == LineId(i)
  {
    var m := SeedLinesBelow(LineCount + 1);
    assert forall i :: 1 <= i <= LineCount ==> LineId(i) in m && m[LineId(i)] == LineDescription(i) by {
      forall i | 1 <= i <= LineCount ensures LineId(i) in m && m[LineId(i)] == LineDescription(i) {
        SeedLinesBelowHas(LineCount + 1, i);
      }
    }
    assert forall k :: k in m ==> exists i :: 1 <= i <= LineCount && k == LineId(i) by {
      forall k | k in m ensures exists i :: 1 <= i <= LineCount && k == LineId(i) {
        SeedLinesBelowOnly(LineCount + 1, k);
      }
    }
    m
  }

  /** Row `k` (from 0) of what one run of `init_db` appends, when `Machines` already held `base` rows. */
  function SeedMachine(base: nat, k: nat): MachineRow {
    var entry := MachineCatalog[k % MachinesPerLine];
    MachineRow(base + k + 1, LineId(k / MachinesPerLine + 1), entry.0, entry.1)
  }

  function SeedMachines(base: nat, n: nat): (rows: seq<MachineRow>)
    ensures |rows| == n
    ensures forall k :: 0 <= k < n ==> rows[k].machineId == base + k + 1
    ensures forall k :: 0 <= k < n ==> rows[k].lineId == LineId(k / MachinesPerLine + 1)
    ensures forall k :: 0 <= k < n ==> (rows[k].machineName, rows[k].machineType) == MachineCatalog[k % MachinesPerLine]
  {
    seq(n, k requires 0 <= k => SeedMachine(base, k))
  }

  /**
   * The rows appended follow the nested loop: line `R{i}` gets the catalog in list
   * order, lines in order `R1` to `R22`, each row with the next autoincrement id.
   */
  lemma SeedMachineLayout(base: nat, i: nat, j: nat)
    requires 1 <= i <= LineCount && j < MachinesPerLine
    ensures (i - 1) * MachinesPerLine + j < SeededMachineCount
    ensures SeedMachines(base, SeededMachineCount)[(i - 1) * MachinesPerLine + j]
         == MachineRow(base + (i - 1) * MachinesPerLine + j + 1, LineId(i), MachineCatalog[j].0, MachineCatalog[j].1)
  {
    DivMod(i - 1, j);
  }

  lemma SeedMachinesSnoc(base: nat, n: nat)
    ensures SeedMachines(base, n + 1) == SeedMachines(base, n) + [SeedMachine(base, n)]
  {
  }

  lemma DivMod(q: nat, r: nat)
    requires r < MachinesPerLine
    ensures (q * MachinesPerLine + r) / MachinesPerLine == q
    ensures (q * MachinesPerLine + r) % MachinesPerLine == r
  {
  }

  /** Index of the first machine of `line` called `name`, as `.values[0]` picks it. */
  function FirstMachine(ms: seq<MachineRow>, line: string, name: string): (r: Option<nat>)
    ensures r.Some? ==> r.value < |ms| && ms[r.value].lineId == line && ms[r.value].machineName == name
    ensures r.Some? ==> forall k :: 0 <= k < r.value ==> !(ms[k].lineId == line && ms[k].machineName == name)
    ensures r.None? ==> forall k :: 0 <= k < |ms| ==> !(ms[k].lineId == line && ms[k].machineName == name)
  {
    if ms == [] then None
    else if ms[0].lineId == line && ms[0].machineName == name then Some(0)
    else match FirstMachine(ms[1..], line, name)
      case Some(i) => Some(i + 1)
      case None => None
  }

  /** Index of the first operator called `name` assigned to `line`. */
  function FirstOperator(ops: seq<OperatorRow>, name: string, line: string): (r: Option<nat>)
    ensures r.Some? ==> r.value < |ops| && ops[r.value].name == name && ops[r.value].assignedLine == line
    ensures r.Some? ==> forall k :: 0 <= k < r.value ==> !(ops[k].name == name && ops[k].assignedLine == line)
    ensures r.None? ==> forall k :: 0 <= k < |ops| ==> !(ops[k].name == name && ops[k].assignedLine == line)
  {
    if ops == [] then None
    else if ops[0].name == name && ops[0].assignedLine == line then Some(0)
    else match FirstOperator(ops[1..], name, line)
      case Some(i) => Some(i + 1)
      case None => None
  }

  /** What the "Log Activity" form holds when "Submit Activity" is pressed. */
  datatype Submission = Submission(
    lineId: string,
    partDescription: string,
    machineName: string,
    operatorName: string,
    activityType: string,
    startTime: string,
    endTime: string,
    notes: string)

  /**
   * How a submission ends: logged; the `ValueError` of a time not in `HH:MM`;
   * or the `IndexError` of a machine the line does not have, which nothing catches.
   */
  datatype SubmitOutcome = Logged | BadTimeFormat | MachineMissing

  /** The row line 123 inserts: `Operators` has no unique column besides its key, so it is always added. */
  function AddedOperator(before: seq<OperatorRow>, s: Submission): (row: OperatorRow)
    ensures row.operatorId == |before| + 1
    ensures row.name == s.operatorName && row.assignedLine == s.lineId
    ensures FirstOperator(before + [row], s.operatorName, s.lineId).Some?
  {
    var row := OperatorRow(|before| + 1, s.operatorName, s.lineId);
    FirstOperatorAppend(before, row, s.operatorName, s.lineId);
    row
  }

  /** After the operator insert the lookup of line 128 cannot fail: it finds the earliest operator of that name on that line. */
  lemma OperatorLookupAfterInsert(before: seq<OperatorRow>, s: Submission)
    ensures FirstOperator(before + [AddedOperator(before, s)], s.operatorName, s.lineId)
         == Some(if FirstOperator(before, s.operatorName, s.lineId).Some?
                 then FirstOperator(before, s.operatorName, s.lineId).value else |before|)
  {
    FirstOperatorAppend(before, AddedOperator(before, s), s.operatorName, s.lineId);
  }

  lemma {:induction false} FirstOperatorAppend(before: seq<OperatorRow>, added: OperatorRow, name: string, line: string)
    requires added.name == name && added.assignedLine == line
    ensures FirstOperator(before + [added], name, line)
         == Some(if FirstOperator(before, name, line).Some? then FirstOperator(before, name, line).value else |before|)
  {
    if before != [] {
      assert (before + [added])[1..] == before[1..] + [added];
      FirstOperatorAppend(before[1..], added, name, line);
    }
  }

  /**
   * The `ActivityLogs` row a submission adds, given the machines and the operators
   * before the operator insert, or why it adds none.
   */
  function SubmittedLog(machines: seq<MachineRow>, before: seq<OperatorRow>, logId: nat, s: Submission): (r: Result<LogRow, SubmitOutcome>)
    ensures r.Failure? ==> r.error != Logged
    ensures r.Success? ==> r.value.durationMinutes < MinutesPerDay
  {
    var operators := before + [AddedOperator(before, s)];
    match FirstMachine(machines, s.lineId, s.machineName)
    case None => Failure(MachineMissing)
    case Some(mi) =>
      OperatorLookupAfterInsert(before, s);
      var oi := FirstOperator(operators, s.operatorName, s.lineId).value;
      match (ParseClock(s.startTime), ParseClock(s.endTime))
      case (Some(start), Some(end)) =>
        DurationBounds(start, end);
        Success(LogRow(logId, s.lineId, machines[mi].machineId, operators[oi].operatorId, s.activityType,
                       Some(s.partDescription), s.startTime, s.endTime, DurationMinutes(start, end), s.notes))
      case _ => Failure(BadTimeFormat)
  }

  /**
   * A row is logged exactly when the line has the chosen machine and both times
   * parse; a missing machine or a bad time adds none. A logged row carries the
   * first matching machine and operator and the wrapped-around duration.
   */
  lemma SubmissionOutcomes(machines: seq<MachineRow>, before: seq<OperatorRow>, logId: nat, s: Submission)
    ensures var r := SubmittedLog(machines, before, logId, s);
            r.Success? <==> (&& FirstMachine(machines, s.lineId, s.machineName).Some?
                             && ParseClock(s.startTime).Some?
                             && ParseClock(s.endTime).Some?)
    ensures FirstMachine(machines, s.lineId, s.machineName).None? ==>
              SubmittedLog(machines, before, logId, s) == Failure(MachineMissing)
    ensures FirstMachine(machines, s.lineId, s.machineName).Some? &&
            (ParseClock(s.startTime).None? || ParseClock(s.endTime).None?) ==>
              SubmittedLog(machines, before, logId, s) == Failure(BadTimeFormat)
    ensures var r := SubmittedLog(machines, before, logId, s);
            r.Success? ==>
              var start, end := ParseClock(s.startTime).value, ParseClock(s.endTime).value;
              var first := FirstOperator(before, s.operatorName, s.lineId);
              && r.value.logId == logId
              && r.value.lineId == s.lineId
              && r.value.machineId == machines[FirstMachine(machines, s.lineId, s.machineName).value].machineId
              && r.value.operatorId == (if first.Some? then before[first.value].operatorId else |before| + 1)
              && r.value.activityType == s.activityType
              && r.value.partDescription == Some(s.partDescription)
              && r.value.startTime == s.startTime && r.value.endTime == s.endTime
              && r.value.durationMinutes == (MinuteOfDay(end) - MinuteOfDay(start)) % MinutesPerDay
              && r.value.notes == s.notes
  {
    OperatorLookupAfterInsert(before, s);
    if ParseClock(s.startTime).Some? && ParseClock(s.endTime).Some? {
      DurationIsForwardDistance(ParseClock(s.startTime).value, ParseClock(s.endTime).value);
    }
  }

  /** The tracker's database file, one field per table. */
  class TrackerDb {
    var lines: map<string, string>
    var machines: seq<MachineRow>
    var operators: seq<OperatorRow>
    var logs: seq<LogRow>

    /** Nothing is ever deleted, so each AUTOINCREMENT key is the row's position plus one. */
    ghost predicate Valid()
      reads this
    {
      && (forall i :: 0 <= i < |machines| ==> machines[i].machineId == i + 1)
      && (forall i :: 0 <= i < |operators| ==> operators[i].operatorId == i + 1)
      && (forall i :: 0 <= i < |logs| ==> logs[i].logId == i + 1)
    }

    /** A new database file: `CREATE TABLE IF NOT EXISTS` leaves four empty tables. */
    constructor ()
      ensures Valid()
      ensures lines == map[] && machines == [] && operators == [] && logs == []
    {
      lines, machines, operators, logs := map[], [], [], [];
    }

    /**
     * The seeding loop of `init_db`: `INSERT OR IGNORE` each line, so a line already
     * present keeps its row, and plain `INSERT` the whole catalog for each line.
     */
    method InitDb()
      requires Valid()
      modifies this
      ensures Valid()
      ensures lines == SeedLines() + old(lines)
      ensures machines == old(machines) + SeedMachines(|old(machines)|, SeededMachineCount)
      ensures operators == old(operators) && logs == old(logs)
    {
      ghost var base := |machines|;
      for i := 1 to LineCount + 1
        invariant lines == SeedLinesBelow(i) + old(lines)
        invariant machines == old(machines) + SeedMachines(base, (i - 1) * MachinesPerLine)
        invariant operators == old(operators) && logs == old(logs)
        invariant Valid()
      {
        var lineId := LineId(i);
        if lineId !in lines {
          lines := lines[lineId := LineDescription(i)];
        }
        SeedLinesStep(i, old(lines));
        InsertCatalog(i, lineId, old(machines));
      }
    }

    /** The inner loop of `init_db`: one plain `INSERT` per catalog entry, for line `R{i}`. */
    method InsertCatalog(i: nat, lineId: string, ghost before: seq<MachineRow>)
      requires Valid() && 1 <= i && lineId == LineId(i)
      requires machines == before + SeedMachines(|before|, (i - 1) * MachinesPerLine)
      modifies this`machines
      ensures Valid()
      ensures machines == before + SeedMachines(|before|, i * MachinesPerLine)
    {
      ghost var base := |before|;
      for j := 0 to |MachineCatalog|
        invariant machines == before + SeedMachines(base, (i - 1) * MachinesPerLine + j)
        invariant Valid()
      {
        var (name, kind) := MachineCatalog[j];
        DivMod(i - 1, j);
        SeedMachinesSnoc(base, (i - 1) * MachinesPerLine + j);
        machines := machines + [MachineRow(|machines| + 1, lineId, name, kind)];
      }
    }

    /**
     * The "Submit Activity" branch: the operator insert is committed first, then
     * the machine and operator ids are looked up, then both times are parsed, and
     * only if all of that succeeds is the log row added.
     */
    method Submit(s: Submission) returns (outcome: SubmitOutcome)
      requires Valid()
      modifies this
      ensures Valid()
      ensures lines == old(lines) && machines == old(machines)
      ensures operators == old(operators) + [AddedOperator(old(operators), s)]
      ensures var r := SubmittedLog(machines, old(operators), |old(logs)| + 1, s);
              && (r.Success? ==> outcome == Logged && logs == old(logs) + [r.value])
              && (r.Failure? ==> outcome == r.error && logs == old(logs))
    {
      OperatorLookupAfterInsert(operators, s);
      operators := operators + [OperatorRow(|operators| + 1, s.operatorName, s.lineId)];
      var mi := FirstMachine(machines, s.lineId, s.machineName);
      if mi.None? {
        return MachineMissing;
      }
      var oi := FirstOperator(operators, s.operatorName, s.lineId).value;
      var start := ParseClock(s.startTime);
      var end := ParseClock(s.endTime);
      if start.None? || end.None? {
        return BadTimeFormat;
      }
      var duration := DurationMinutes(start.value, end.value);
      logs := logs + [LogRow(|logs| + 1, s.lineId, machines[mi.value].machineId, operators[oi].operatorId,
                             s.activityType, Some(s.partDescription), s.startTime, s.endTime, duration, s.notes)];
      outcome := Logged;
    }
  }

  /** After `init_db`, `Lines` holds `R1` to `R22`; a line it adds has its own description, and nothing else is added. */
  lemma SeededLines(m: map<string, string>, i: nat, k: string)
    requires 1 <= i <= LineCount
    ensures LineId(i) in SeedLines() + m
    ensures LineId(i) !in m ==> (SeedLines() + m)[LineId(i)] == LineDescription(i)
    ensures k in SeedLines() + m && k !in m ==> exists j :: 1 <= j <= LineCount && k == LineId(j)
  {
    SeedLinesBelowHas(LineCount + 1, i);
    if k in SeedLines() + m && k !in m {
      SeedLinesBelowOnly(LineCount + 1, k);
    }
  }

  /** `INSERT OR IGNORE` makes the line seeding idempotent: a second `init_db` leaves `Lines` as the first left it. */
  lemma SeedLinesIdempotent(m: map<string, string>)
    ensures SeedLines() + (SeedLines() + m) == SeedLines() + m
  {
  }

  /** One round of the line seeding: `INSERT OR IGNORE` of `R{i}` onto what the earlier rounds left. */
  lemma SeedLinesStep(i: nat, m: map<string, string>)
    requires 1 <= i
    ensures SeedLinesBelow(i + 1) + m ==
            (var prev := SeedLinesBelow(i) + m;
             if LineId(i) in prev then prev else prev[LineId(i) := LineDescription(i)])
  {
    var a := SeedLinesBelow(i);
    var k, v := LineId(i), LineDescription(i);
    SeedLinesBelowHas(i, i);
    assert SeedLinesBelow(i + 1) == a[k := v];
    if k in m {
      assert a[k := v] + m == a + m;
    } else {
      assert a[k := v] + m == (a + m)[k := v];
    }
  }
}
