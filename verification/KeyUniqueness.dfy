/** "One live position per control key": the code guards the key against other budgets
    only, so the rule can fail inside one budget. Exactly when each verb keeps it. */
module KeyUniqueness {
  import opened BudgetTypes
  import opened BudgetReads
  import opened BudgetWorkflow
  import opened AtomicRuns

  /** One live position per control key, in the whole database. */
  ghost predicate KeysUnique(db: Db) {
    forall l, m | LiveLine(db, l) && LiveLine(db, m) && KeyOf(db.lines[l]) == KeyOf(db.lines[m]) :: l == m
  }

  predicate NoRepeatedKey(lines: seq<NewBudgetLine>) {
    forall i, j | 0 <= i < j < |lines| :: KeyOfNew(lines[i]) != KeyOfNew(lines[j])
  }

  /** The caller's side of the rule: no key twice in one create, and no added key its own budget already holds. */
  predicate Careful(db: Db, v: Verb) {
    match v
    case Create(_, _, input) => NoRepeatedKey(input.lines)
    case AddLine(b, _, line) => !Holds(db, b, KeyOfNew(line))
    case _ => true
  }

  /** The stored key of every input line, by position. */
  lemma CreatedKeys(db: Db, gl: Gl, id: BudgetId, lineIds: seq<LineId>, input: NewBudget)
    requires |lineIds| == |input.lines| && CreateEffect(db, gl, id, lineIds, input).result.Ok?
    ensures var after := CreateEffect(db, gl, id, lineIds, input).db;
            && BudgetAdded(db, after, id)
            && after.lines.Keys == db.lines.Keys + (set l | l in lineIds)
            && (forall i, j | 0 <= i < j < |lineIds| :: lineIds[i] != lineIds[j])
            && forall i | 0 <= i < |lineIds| :: LiveLine(after, lineIds[i]) && KeyOf(after.lines[lineIds[i]]) == KeyOfNew(input.lines[i])
  {
    CreateAddsExactly(db, gl, id, lineIds, input);
    CreateShape(db, gl, id, lineIds, input);
    var after := CreateEffect(db, gl, id, lineIds, input).db;
    forall i | 0 <= i < |lineIds| ensures LiveLine(after, lineIds[i]) && KeyOf(after.lines[lineIds[i]]) == KeyOfNew(input.lines[i]) {
      assert Stored(gl, after.lines, id, lineIds[i], input.lines[i]);
    }
  }

  /** A successful create keeps the rule if and only if its own lines repeat no key. */
  lemma CreateKeepsUniqueExactly(db: Db, gl: Gl, id: BudgetId, lineIds: seq<LineId>, input: NewBudget)
    requires |lineIds| == |input.lines| && CreateEffect(db, gl, id, lineIds, input).result.Ok?
    requires KeysUnique(db) && forall l | l in db.lines :: db.lines[l].budget in db.budgets
    ensures KeysUnique(CreateEffect(db, gl, id, lineIds, input).db) <==> NoRepeatedKey(input.lines)
  {
    CreatedKeys(db, gl, id, lineIds, input);
    CreatedUnique(db, CreateEffect(db, gl, id, lineIds, input).db, id, lineIds, input.lines);
  }

  lemma CreatedUnique(db: Db, after: Db, id: BudgetId, lineIds: seq<LineId>, lines: seq<NewBudgetLine>)
    requires BudgetAdded(db, after, id) && |lineIds| == |lines|
    requires KeysUnique(db) && forall l | l in db.lines :: db.lines[l].budget in db.budgets
    requires after.lines.Keys == db.lines.Keys + (set l | l in lineIds)
    requires forall i, j | 0 <= i < j < |lineIds| :: lineIds[i] != lineIds[j]
    requires forall i | 0 <= i < |lineIds| :: LiveLine(after, lineIds[i]) && KeyOf(after.lines[lineIds[i]]) == KeyOfNew(lines[i])
    ensures KeysUnique(after) <==> NoRepeatedKey(lines)
  {
  }

  /** A successful add_line keeps the rule if and only if its own budget does not hold the key yet. */
  lemma AddLineKeepsUniqueExactly(db: Db, gl: Gl, b: BudgetId, id: LineId, line: NewBudgetLine)
    requires AddLineEffect(db, gl, b, id, line).result.Ok? && KeysUnique(db)
    ensures KeysUnique(AddLineEffect(db, gl, b, id, line).db) <==> !Holds(db, b, KeyOfNew(line))
  {
    var after := AddLineEffect(db, gl, b, id, line).db;
    var row := NewRow(FindPeriod(gl, line.period).value, b, line);
    assert after.lines == db.lines[id := row] && id !in db.lines && KeyOf(row) == KeyOfNew(line);
    assert !KeyTaken(db, KeyOf(row), b);
    if Holds(db, b, KeyOfNew(line)) {
      var held :| held in LiveLinesOf(db, b) && KeyOf(db.lines[held]) == KeyOfNew(line);
      assert LiveLine(after, held) && LiveLine(after, id) && KeyOf(after.lines[held]) == KeyOf(after.lines[id]) && held != id;
    } else {
      forall l, m | LiveLine(after, l) && LiveLine(after, m) && KeyOf(after.lines[l]) == KeyOf(after.lines[m]) ensures l == m {
        assert forall n | LiveLine(db, n) && KeyOf(db.lines[n]) == KeyOfNew(line) :: db.lines[n].budget == b && n in LiveLinesOf(db, b);
      }
    }
  }

  lemma OtherVerbsKeepUnique(db: Db, gl: Gl, v: Verb)
    requires Drawn(v) && !v.Create? && !v.AddLine? && KeysUnique(db)
    ensures KeysUnique(Apply(db, gl, v))
  {
  }

  ghost predicate CarefulRun(w: World, events: seq<Event>)
    requires AllDrawn(events)
    decreases |events|
  {
    events != [] ==> Careful(w.db, events[0].verb) && CarefulRun(Step(w, events[0]), events[1..])
  }

  /** With careful callers the rule holds in every state of every run, and then a key has one position at most. */
  lemma {:induction false} CarefulRunsKeepUnique(w: World, events: seq<Event>, key: LineKey)
    requires AllDrawn(events) && CarefulRun(w, events)
    requires Invariant(w) && KeysUnique(w.db)
    ensures KeysUnique(Run(w, events).db)
    ensures forall p, q | p in Coverage(Run(w, events).db, key) && q in Coverage(Run(w, events).db, key) :: p == q
    decreases |events|
  {
    if events != [] {
      var e := events[0];
      RunKeepsInvariant(w, [e]);
      assert Run(w, [e]) == Run(Step(w, e), [e][1..]) == Step(w, e);
      if Succeeds(w.db, e.gl, e.verb) {
        match e.verb {
          case Create(id, lineIds, input) => CreateKeepsUniqueExactly(w.db, e.gl, id, lineIds, input);
          case AddLine(b, id, line) => AddLineKeepsUniqueExactly(w.db, e.gl, b, id, line);
          case _ => OtherVerbsKeepUnique(w.db, e.gl, e.verb);
        }
      } else {
        FailedVerbWritesNothing(w.db, e.gl, e.verb);
      }
      CarefulRunsKeepUnique(Step(w, e), events[1..], key);
    }
  }

  /** A create that names one key twice succeeds, and two live positions share the key. */
  lemma CreateCanRepeatAKey() returns (gl: Gl, v: Verb)
    ensures Drawn(v) && v.Create? && Succeeds(Db(map[], map[]), gl, v)
    ensures !KeysUnique(Apply(Db(map[], map[]), gl, v))
  {
    gl := Gl(true, map[1 := Account(true, false, true, false, DebitNormal)], map[],
             map[7 := Period(1, 31, 2026, Some(1), false)]);
    var line := NewBudgetLine(1, None, 7, 100.0, None);
    var input := NewBudget("B", "B", None, 2026, 1, 31, Warn, [line, line]);
    var db, header := Db(map[], map[]), DraftOf(input);
    v := Create(3, [5, 6], input);
    assert LineRefusal(gl, header, line).None?;
    assert input.lines[1..] == [line] && [line][1..] == [];
    assert FirstRefusal(db, gl, header, 3, [line]).None?;
    assert FirstRefusal(db, gl, header, 3, input.lines).None?;
    assert 'B' in header.code && 'B' in header.name;
    var tx := db.(budgets := db.budgets[3 := header]);
    var row := NewRow(gl.periods[7], 3, line);
    assert ToCents(100.0) == 100.0;
    var tx1 := tx.(lines := tx.lines[5 := row]);
    var tx2 := tx1.(lines := tx1.lines[6 := row]);
    assert [5, 6][1..] == [6] && [6][1..] == [];
    assert InsertLines(gl, tx1, 3, [6], [line]) == InsertLines(gl, tx2, 3, [], []) == Ok(tx2);
    assert InsertLines(gl, tx, 3, [5, 6], input.lines) == Ok(tx2);
    assert LiveLine(tx2, 5) && LiveLine(tx2, 6);
  }
}
