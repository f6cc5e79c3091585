/**
 * Records kept under optimistic revisions by any number of clients.
 *
 * The store is an atomic compare-and-set register per key: a save takes effect only when the
 * stored revision is the one the writer loaded. Clients load a row, compute a transition of what
 * they loaded, and save it whenever they are scheduled again. Nothing here depends on what the
 * records are; a `Machine` says how they are keyed, numbered and changed.
 */
module OptimisticStore {
  import opened Common

  /** A record type with its revision counter and its transitions. */
  datatype Machine<!R, !O> = Machine(
    key: R -> string,
    rev: R -> int,
    step: (O, R) -> Option<R>,    // None when the transition is refused
    first: R -> bool,             // what may be inserted
    good: R -> bool,              // what every stored record satisfies
    edge: (R, R) -> bool)         // what a changing transition relates

  ghost predicate Changes<R(!new), O(!new)>(m: Machine<R, O>, o: O, r: R, n: R) {
    m.step(o, r) == Some(n) && n != r
  }

  /** The machine counts its revisions, keeps its keys and keeps its records good. */
  ghost predicate Lawful<R(!new), O(!new)>(m: Machine<R, O>) {
    && (forall r :: m.first(r) ==> m.good(r) && m.rev(r) == 1)
    && (forall o, r, n :: m.good(r) && Changes(m, o, r, n) ==>
          m.good(n) && m.rev(n) == m.rev(r) + 1 && m.key(n) == m.key(r) && m.edge(r, n))
  }

  /** One stored version and the transition that produced it; an inserted one has none. */
  datatype Version<R, O> = Version(record: R, via: Option<O>)

  type History<R, O> = seq<Version<R, O>>

  type Rows<R, O> = map<string, History<R, O>>

  ghost predicate Link<R(!new), O(!new)>(m: Machine<R, O>, before: R, v: Version<R, O>) {
    v.via.Some? && Changes(m, v.via.value, before, v.record)
  }

  /** A history that starts with an inserted record and takes one changing transition per version. */
  ghost predicate Path<R(!new), O(!new)>(m: Machine<R, O>, h: History<R, O>) {
    && |h| > 0 && h[0].via.None? && m.first(h[0].record)
    && forall i :: 0 < i < |h| ==> Link(m, h[i - 1].record, h[i])
  }

  function Last<R, O>(h: History<R, O>): R
    requires |h| > 0
  {
    h[|h| - 1].record
  }

  /** Along a path the revision is the position, the key is constant and every record is good. */
  lemma {:induction false} PathFacts<R(!new), O(!new)>(m: Machine<R, O>, h: History<R, O>, i: nat)
    requires Lawful(m) && Path(m, h) && i < |h|
    ensures m.rev(h[i].record) == i + 1 && m.good(h[i].record) && m.key(h[i].record) == m.key(h[0].record)
    ensures i > 0 ==> m.edge(h[i - 1].record, h[i].record)
  {
    if i > 0 {
      PathFacts(m, h, i - 1);
      assert Link(m, h[i - 1].record, h[i]);
    }
  }

  lemma PathAppend<R(!new), O(!new)>(m: Machine<R, O>, h: History<R, O>, v: Version<R, O>)
    requires Path(m, h) && Link(m, Last(h), v)
    ensures Path(m, h + [v])
  {
    forall i | 0 < i < |h + [v]|
      ensures Link(m, (h + [v])[i - 1].record, (h + [v])[i])
    {
      if i < |h| {
        assert Link(m, h[i - 1].record, h[i]);
      }
    }
  }

  // ---------------------------------------------------------------- the clients

  datatype State<R, O> = State(rows: Rows<R, O>, loaded: map<nat, R>)

  datatype Action<R, O> =
    | Insert(record: R)                    // under an unused key
    | Load(client: nat, key: string)
    | Save(client: nat, op: O)             // transition what was loaded, then compare-and-set
    | Sweep(keys: set<string>, op: O)      // one statement that applies a transition to stored rows

  /** The compare-and-set; None is a conflict. */
  function SaveRow<R, O>(m: Machine<R, O>, rows: Rows<R, O>, next: R, expected: int, op: O): Option<Rows<R, O>> {
    var k := m.key(next);
    if k in rows && |rows[k]| > 0 && expected > 0 && m.rev(next) == expected + 1 && m.rev(Last(rows[k])) == expected
    then Some(rows[k := rows[k] + [Version(next, Some(op))]])
    else None
  }

  function SweepRow<R(==), O>(m: Machine<R, O>, h: History<R, O>, op: O): History<R, O> {
    if h == [] then h else
      var next := m.step(op, Last(h));
      if next.Some? && next.value != Last(h) then h + [Version(next.value, Some(op))] else h
  }

  function Next<R(==), O>(m: Machine<R, O>, s: State<R, O>, a: Action<R, O>): State<R, O> {
    match a
    case Insert(r) =>
      if m.first(r) && m.key(r) !in s.rows then s.(rows := s.rows[m.key(r) := [Version(r, None)]]) else s
    case Load(client, k) =>
      if k in s.rows && s.rows[k] != [] then s.(loaded := s.loaded[client := Last(s.rows[k])]) else s
    case Save(client, op) =>
      if client !in s.loaded then s else
        var current := s.loaded[client];
        var next := m.step(op, current);
        if next.None? || next.value == current then s else
          var rows := SaveRow(m, s.rows, next.value, m.rev(current), op);
          if rows.None? then s else State(rows.value, s.loaded[client := next.value])
    case Sweep(keys, op) =>
      s.(rows := map k | k in s.rows :: if k in keys then SweepRow(m, s.rows[k], op) else s.rows[k])
  }

  function Run<R(==), O>(m: Machine<R, O>, actions: seq<Action<R, O>>): State<R, O> {
    if actions == [] then State(map[], map[])
    else Next(m, Run(m, actions[..|actions| - 1]), actions[|actions| - 1])
  }

  // ---------------------------------------------------------------- what every run keeps

  /** `r` is one of the versions stored under its key. */
  predicate Stored<R(==), O>(m: Machine<R, O>, rows: Rows<R, O>, r: R) {
    m.key(r) in rows && 1 <= m.rev(r) <= |rows[m.key(r)]| && rows[m.key(r)][m.rev(r) - 1].record == r
  }

  ghost predicate RowsOk<R(!new), O(!new)>(m: Machine<R, O>, rows: Rows<R, O>) {
    forall k :: k in rows ==> Path(m, rows[k]) && m.key(rows[k][0].record) == k
  }

  ghost predicate Inv<R(!new), O(!new)>(m: Machine<R, O>, s: State<R, O>) {
    && RowsOk(m, s.rows)
    && forall client :: client in s.loaded ==> Stored(m, s.rows, s.loaded[client])
  }

  /** Every history of `before` is still there and has at most grown at its end. */
  ghost predicate Grows<R, O>(before: Rows<R, O>, after: Rows<R, O>) {
    forall k :: k in before ==> k in after && before[k] <= after[k]
  }

  lemma StoredGrows<R, O>(m: Machine<R, O>, before: Rows<R, O>, after: Rows<R, O>, r: R)
    requires Grows(before, after) && Stored(m, before, r)
    ensures Stored(m, after, r)
  {
    assert before[m.key(r)] <= after[m.key(r)];
  }

  lemma GrowsTransitive<R, O>(a: Rows<R, O>, b: Rows<R, O>, c: Rows<R, O>)
    requires Grows(a, b) && Grows(b, c)
    ensures Grows(a, c)
  {
    forall k | k in a
      ensures k in c && a[k] <= c[k]
    {
      assert a[k] <= b[k] && b[k] <= c[k];
    }
  }

  /**
   * The heart of the compare-and-set: when the stored revision still is the one that was loaded,
   * the stored record still is the one that was loaded, so the save extends the path.
   */
  lemma SaveExtends<R(!new), O(!new)>(m: Machine<R, O>, rows: Rows<R, O>, current: R, op: O, next: R)
    requires Lawful(m) && RowsOk(m, rows) && Stored(m, rows, current) && Changes(m, op, current, next)
    requires SaveRow(m, rows, next, m.rev(current), op).Some?
    ensures var after := SaveRow(m, rows, next, m.rev(current), op).value;
            && RowsOk(m, after) && Grows(rows, after) && Stored(m, after, next)
            && Last(rows[m.key(next)]) == current
  {
    var h := rows[m.key(current)];
    PathFacts(m, h, m.rev(current) - 1);
    PathFacts(m, h, |h| - 1);
    PathAppend(m, h, Version(next, Some(op)));
  }

  /** The version appended by a save that succeeds; a failed one means the row has advanced. */
  lemma SaveOutcome<R(!new), O(!new)>(m: Machine<R, O>, rows: Rows<R, O>, current: R, op: O, next: R)
    requires Lawful(m) && RowsOk(m, rows) && Stored(m, rows, current) && Changes(m, op, current, next)
    ensures var k, after := m.key(current), SaveRow(m, rows, next, m.rev(current), op);
            && m.key(next) == k && k in rows && |rows[k]| > 0
            && (after.Some? <==> Last(rows[k]) == current)
            && (after.Some? <==> m.rev(Last(rows[k])) == m.rev(current))
            && (after.None? ==> Superseded(m, rows, current))
            && m.rev(current) > 0 && m.rev(next) == m.rev(current) + 1
  {
    var h := rows[m.key(current)];
    PathFacts(m, h, m.rev(current) - 1);
    PathFacts(m, h, |h| - 1);
  }

  /** The row of `r` holds a later version than `r`. */
  predicate Superseded<R, O>(m: Machine<R, O>, rows: Rows<R, O>, r: R) {
    m.key(r) in rows && m.rev(r) < |rows[m.key(r)]|
  }

  lemma SweepExtends<R(!new), O(!new)>(m: Machine<R, O>, h: History<R, O>, op: O)
    requires Lawful(m) && Path(m, h)
    ensures Path(m, SweepRow(m, h, op)) && h <= SweepRow(m, h, op)
  {
    var next := m.step(op, Last(h));
    if next.Some? && next.value != Last(h) {
      PathAppend(m, h, Version(next.value, Some(op)));
    }
  }

  lemma LoadIsStored<R(!new), O(!new)>(m: Machine<R, O>, rows: Rows<R, O>, k: string)
    requires Lawful(m) && RowsOk(m, rows) && k in rows
    ensures |rows[k]| > 0 && Stored(m, rows, Last(rows[k])) && m.key(Last(rows[k])) == k
  {
    PathFacts(m, rows[k], |rows[k]| - 1);
  }

  lemma SweepKeeps<R(!new), O(!new)>(m: Machine<R, O>, s: State<R, O>, keys: set<string>, op: O)
    requires Lawful(m) && RowsOk(m, s.rows)
    ensures var after := Next(m, s, Sweep(keys, op)).rows; RowsOk(m, after) && Grows(s.rows, after)
  {
    var after := Next(m, s, Sweep(keys, op)).rows;
    forall k | k in s.rows
      ensures Path(m, after[k]) && s.rows[k] <= after[k] && after[k][0] == s.rows[k][0]
    {
      SweepExtends(m, s.rows[k], op);
    }
  }

  lemma RowsKeep<R(!new), O(!new)>(m: Machine<R, O>, s: State<R, O>, a: Action<R, O>)
    requires Lawful(m) && Inv(m, s)
    ensures RowsOk(m, Next(m, s, a).rows) && Grows(s.rows, Next(m, s, a).rows)
  {
    match a
    case Insert(_) =>
    case Load(_, _) =>
    case Save(client, op) =>
      if client in s.loaded && Next(m, s, a).rows != s.rows {
        SaveExtends(m, s.rows, s.loaded[client], op, m.step(op, s.loaded[client]).value);
      }
    case Sweep(keys, op) => SweepKeeps(m, s, keys, op);
  }

  lemma StepKeeps<R(!new), O(!new)>(m: Machine<R, O>, s: State<R, O>, a: Action<R, O>)
    requires Lawful(m) && Inv(m, s)
    ensures Inv(m, Next(m, s, a)) && Grows(s.rows, Next(m, s, a).rows)
  {
    var s' := Next(m, s, a);
    RowsKeep(m, s, a);
    forall client | client in s'.loaded
      ensures Stored(m, s'.rows, s'.loaded[client])
    {
      if client in s.loaded && s'.loaded[client] == s.loaded[client] {
        StoredGrows(m, s.rows, s'.rows, s.loaded[client]);
      } else if a.Load? {
        LoadIsStored(m, s.rows, a.key);
      } else {
        SaveExtends(m, s.rows, s.loaded[client], a.op, s'.loaded[client]);
      }
    }
  }

  /** In every interleaving each stored history is a path of the machine. */
  lemma {:induction false} EveryRun<R(!new), O(!new)>(m: Machine<R, O>, actions: seq<Action<R, O>>)
    requires Lawful(m)
    ensures Inv(m, Run(m, actions))
  {
    if actions != [] {
      var before := actions[..|actions| - 1];
      EveryRun(m, before);
      StepKeeps(m, Run(m, before), actions[|actions| - 1]);
    }
  }

  /** An earlier moment's history is a prefix of every later one. */
  lemma {:induction false} HistoriesGrow<R(!new), O(!new)>(m: Machine<R, O>, actions: seq<Action<R, O>>, k: nat)
    requires Lawful(m) && k <= |actions|
    ensures Grows(Run(m, actions[..k]).rows, Run(m, actions).rows)
  {
    if k == |actions| {
      assert actions[..k] == actions;
    } else {
      var before := actions[..|actions| - 1];
      assert actions[..k] == before[..k];
      HistoriesGrow(m, before, k);
      EveryRun(m, before);
      StepKeeps(m, Run(m, before), actions[|actions| - 1]);
      GrowsTransitive(Run(m, actions[..k]).rows, Run(m, before).rows, Run(m, actions).rows);
    }
  }

  // ---------------------------------------------------------------- the first save

  /** A first record is stored and one client loads it. */
  lemma FirstLoad<R, O>(m: Machine<R, O>, r: R)
    requires m.first(r)
    ensures Run(m, [Insert(r), Load(0, m.key(r))]) == State(map[m.key(r) := [Version(r, None)]], map[0 := r])
  {
    var inserted, loaded := [Insert(r)], [Insert(r), Load(0, m.key(r))];
    assert inserted[..0] == [] && loaded[..1] == inserted;
    assert Run(m, inserted) == State(map[m.key(r) := [Version(r, None)]], map[]);
  }

  /** What the client saves becomes the second version. */
  lemma SecondVersion<R, O>(m: Machine<R, O>, r: R, n: R, op: O)
    requires m.step(op, r) == Some(n) && n != r && m.key(n) == m.key(r) && m.rev(r) == 1 && m.rev(n) == 2
    ensures Next(m, State(map[m.key(r) := [Version(r, None)]], map[0 := r]), Save(0, op)).rows
         == map[m.key(r) := [Version(r, None), Version(n, Some(op))]]
  {
    var k, h, h' := m.key(r), [Version(r, None)], [Version(r, None), Version(n, Some(op))];
    assert h + [Version(n, Some(op))] == h';
    assert map[k := h][k := h'] == map[k := h'];
  }

  lemma FirstSave<R, O>(m: Machine<R, O>, r: R, n: R, op: O)
    requires m.first(r) && m.rev(r) == 1
    requires m.step(op, r) == Some(n) && n != r && m.key(n) == m.key(r) && m.rev(n) == 2
    ensures Run(m, [Insert(r), Load(0, m.key(r)), Save(0, op)]).rows
         == map[m.key(r) := [Version(r, None), Version(n, Some(op))]]
  {
    var all := [Insert(r), Load(0, m.key(r)), Save(0, op)];
    FirstLoad(m, r);
    SecondVersion(m, r, n, op);
    assert all[..2] == [Insert(r), Load(0, m.key(r))];
  }

  lemma RunMore<R, O>(m: Machine<R, O>, actions: seq<Action<R, O>>, a: Action<R, O>)
    ensures Run(m, actions + [a]) == Next(m, Run(m, actions), a)
  {
    assert (actions + [a])[..|actions|] == actions;
  }

  /** A sweep over the one row. */
  lemma SweepOne<R, O>(m: Machine<R, O>, s: State<R, O>, k: string, h: History<R, O>, op: O)
    requires s.rows == map[k := h]
    ensures Next(m, s, Sweep({k}, op)).rows == map[k := SweepRow(m, h, op)]
  {
  }
}
