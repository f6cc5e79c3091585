/** The optimistic store carried out in place, as one client of it sees it. */
module Repository {
  import opened Common
  import opened OptimisticStore

  datatype Failure = Missing | Conflicting | Down

  /** The table shows the last version of every row. */
  ghost predicate Tabled<R(!new), O(!new)>(m: Machine<R, O>, table: map<string, R>, rows: Rows<R, O>) {
    && Lawful(m) && RowsOk(m, rows)
    && table.Keys == rows.Keys
    && forall k :: k in table ==> |rows[k]| > 0 && table[k] == Last(rows[k])
  }

  /** A save that found the loaded record appends its successor and shows it. */
  lemma SavedTable<R(!new), O(!new)>(
    m: Machine<R, O>, table: map<string, R>, rows: Rows<R, O>, current: R, op: O, next: R)
    requires Tabled(m, table, rows) && Stored(m, rows, current) && Changes(m, op, current, next)
    requires SaveRow(m, rows, next, m.rev(current), op).Some?
    ensures var after := SaveRow(m, rows, next, m.rev(current), op).value;
            && Tabled(m, table[m.key(next) := next], after) && Grows(rows, after) && Stored(m, after, next)
  {
    SaveExtends(m, rows, current, op, next);
  }

  lemma StaysStored<R(!new), O(!new)>(m: Machine<R, O>, before: Rows<R, O>, after: Rows<R, O>)
    requires Grows(before, after)
    ensures forall r :: Stored(m, before, r) ==> Stored(m, after, r)
  {
    forall r | Stored(m, before, r)
      ensures Stored(m, after, r)
    {
      StoredGrows(m, before, after, r);
    }
  }

  class Repository<R(!new, ==), O(!new)> {
    const machine: Machine<R, O>
    var table: map<string, R>
    ghost var rows: Rows<R, O>   // every version each row has had

    ghost predicate Valid()
      reads this
    {
      Tabled(machine, table, rows)
    }

    ghost predicate Has(r: R)
      reads this
    {
      Stored(machine, rows, r)
    }

    constructor (machine: Machine<R, O>)
      requires Lawful(machine)
      ensures Valid() && table == map[] && this.machine == machine
    {
      this.machine, table, rows := machine, map[], map[];
    }

    /** Any number of steps by other clients: histories may grow, nothing stored is lost. */
    method Interfere()
      requires Valid()
      modifies this
      ensures Valid() && Grows(old(rows), rows)
      ensures forall r :: old(Has(r)) ==> Has(r)
    {
    }

    method Find(key: string, up: bool) returns (r: Result<R, Failure>)
      requires Valid()
      ensures if !up then r == Err(Down) else if key in table then r.Ok? else r == Err(Missing)
      ensures r.Ok? ==> key in table && r.value == table[key] && machine.key(r.value) == key && Has(r.value)
    {
      if !up {
        return Err(Down);
      }
      if key !in table {
        return Err(Missing);
      }
      r := Ok(table[key]);
      LoadIsStored(machine, rows, key);
    }

    /** Add a row under an unused key. */
    method Insert(record: R, up: bool) returns (r: Result<R, Failure>)
      requires Valid() && machine.first(record)
      modifies this
      ensures Valid() && Grows(old(rows), rows)
      ensures r.Ok? ==> r.value == record && Has(record) && table == old(table)[machine.key(record) := record]
      ensures r.Err? ==> table == old(table) && rows == old(rows)
      ensures r.Ok? <==> up && machine.key(record) !in old(table)
      ensures r.Err? ==> r.error == if up then Conflicting else Down
      ensures !up ==> r.Err?
    {
      if !up {
        return Err(Down);
      }
      if machine.key(record) in table {
        return Err(Conflicting);
      }
      rows := rows[machine.key(record) := [Version(record, None)]];
      table := table[machine.key(record) := record];
      r := Ok(record);
    }

    /** Adds a row, after whatever other clients did meanwhile. */
    method InsertLater(record: R, up: bool) returns (r: Result<R, Failure>)
      requires Valid() && machine.first(record)
      modifies this
      ensures Valid() && Grows(old(rows), rows)
      ensures r.Ok? ==> r.value == record && Has(record)
      ensures r == Err(Conflicting) ==> machine.key(record) in table
      ensures r.Err? ==> r.error == if up then Conflicting else Down
      ensures !up ==> r.Err?
    {
      Interfere();
      ghost var middle := rows;
      r := Insert(record, up);
      GrowsTransitive(old(rows), middle, rows);
    }

    /** Some client has written the row of `r` since `r` was its current record. */
    ghost predicate Overtaken(r: R)
      reads this
    {
      Superseded(machine, rows, r)
    }

    /**
     * The compare-and-set on the stored revision: it succeeds exactly when the stored record still
     * is the one the caller loaded.
     */
    method Save(next: R, expected: int, up: bool, ghost current: R, ghost op: O) returns (r: Result<R, Failure>)
      requires Valid() && Has(current) && expected == machine.rev(current)
      requires Changes(machine, op, current, next)
      modifies this
      ensures Valid() && Grows(old(rows), rows)
      ensures forall x :: old(Has(x)) ==> Has(x)
      ensures machine.key(current) in old(table) && machine.key(next) == machine.key(current)
      ensures r.Ok? ==> r.value == next && Has(next) && table == old(table)[machine.key(next) := next]
      ensures r.Err? ==> table == old(table) && rows == old(rows)
      ensures up ==> (r.Ok? <==> old(table)[machine.key(current)] == current)
      ensures r == Err(Conflicting) ==> Overtaken(current)
      ensures r.Err? ==> r.error == if up then Conflicting else Down
      ensures !up ==> r.Err?
    {
      SaveOutcome(machine, rows, current, op, next);
      if !up {
        return Err(Down);
      }
      var k := machine.key(next);
      if k !in table || expected <= 0 || machine.rev(next) != expected + 1 || machine.rev(table[k]) != expected {
        return Err(Conflicting);
      }
      SavedTable(machine, table, rows, current, op, next);
      rows := SaveRow(machine, rows, next, expected, op).value;
      StaysStored(machine, old(rows), rows);
      table := table[k := next];
      r := Ok(next);
    }

    /** A save under the revision of the loaded record, after whatever other clients did meanwhile. */
    method SaveLoaded(next: R, current: R, up: bool, ghost op: O) returns (r: Result<R, Failure>)
      requires Valid() && Has(current) && Changes(machine, op, current, next)
      modifies this
      ensures Valid() && Grows(old(rows), rows) && Has(current)
      ensures r.Ok? ==> r.value == next && Has(next)
      ensures r == Err(Conflicting) ==> Overtaken(current)
      ensures r.Err? ==> r.error == if up then Conflicting else Down
      ensures !up ==> r.Err?
    {
      Interfere();
      ghost var middle := rows;
      r := Save(next, machine.rev(current), up, current, op);
      GrowsTransitive(old(rows), middle, rows);
    }

    /** An overtaken record stays overtaken. */
    lemma StaysOvertaken(before: Rows<R, O>, after: Rows<R, O>, r: R)
      requires Grows(before, after) && Superseded(machine, before, r)
      ensures Superseded(machine, after, r)
    {
      assert before[machine.key(r)] <= after[machine.key(r)];
    }

    /** The current record of an overtaken row is later than the record it overtook. */
    lemma OvertakenIsEarlier(r: R, current: R)
      requires Valid() && Overtaken(r) && machine.key(r) in table && table[machine.key(r)] == current
      ensures machine.rev(r) < machine.rev(current)
    {
      var h := rows[machine.key(r)];
      PathFacts(machine, h, |h| - 1);
    }

    /** A stored record is the current one exactly when its revision is the current one. */
    lemma RevisionsIdentify(r: R)
      requires Valid() && Has(r)
      ensures machine.good(r) && machine.rev(r) >= 1 && machine.key(r) in table
      ensures machine.rev(table[machine.key(r)]) == machine.rev(r) <==> table[machine.key(r)] == r
    {
      var h := rows[machine.key(r)];
      PathFacts(machine, h, machine.rev(r) - 1);
      PathFacts(machine, h, |h| - 1);
    }
  }
}
