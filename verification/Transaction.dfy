/** One database session whose repository methods commit themselves, and the block that defers those
    commits to its own end. Programs are trees of writes, reads, statements the database refuses, inner
    commits, raised errors, handlers and nested blocks. */
module Transaction {
  type Rows = map<string, int>

  datatype Stmt =
    | Read
    | Write(key: string, value: int)
    | CommitSession
    | ReleaseRead
    | Refused
    | Raise
    | Cancel
    | Try(body: seq<Stmt>)
    | Atomic(body: seq<Stmt>)

  /** How a program ends: normally, by an error, or by cancellation, which handlers do not catch. */
  datatype Outcome = Done | Failed | Cancelled

  /** A session is alive, or dead after a flush or a commit has failed, or after the database has refused
      a statement: it refuses all further use until it is rolled back. */
  datatype Health = Alive | FlushFailed | StatementRefused

  /** `durable` is what the database keeps, `view` what the session sees, `faults` says which of the
      coming commits and flushes fail. `quiet` says whether ending the transaction of a dead session,
      which keeps nothing, passes without an error: by an explicit commit, or by leaving
      `session.begin()`. */
  datatype State = State(
    durable: Rows, view: Rows, inTx: bool, deferred: bool, health: Health, faults: seq<bool>, quiet: set<(Health, End)>)

  datatype End = ByCommit | ByBegin

  /** Without an open transaction the session has nothing pending and is usable. */
  predicate Valid(s: State) {
    !s.inTx ==> s.view == s.durable && s.health == Alive
  }

  function Rollback(s: State): State {
    s.(view := s.durable, inTx := false, health := Alive)
  }

  predicate NextFails(faults: seq<bool>) {
    faults != [] && faults[0]
  }

  function Later(faults: seq<bool>): seq<bool> {
    if faults == [] then [] else faults[1..]
  }

  /** `session.flush()`: sends the pending writes, which the database may refuse. */
  function Flush(s: State): (State, Outcome) {
    if s.health != Alive then (s, Failed)
    else
      (s.(inTx := true, faults := Later(s.faults), health := AfterFlush(s.faults)),
       if NextFails(s.faults) then Failed else Done)
  }

  function AfterFlush(faults: seq<bool>): Health {
    if NextFails(faults) then FlushFailed else Alive
  }

  /** `session.commit()`: a failing commit keeps nothing and leaves the transaction to be rolled back;
      so may that of a dead session, or it keeps nothing and says nothing. */
  function Commit(s: State): (State, Outcome) {
    if s.health != Alive && (s.health, ByCommit) in s.quiet then (Rollback(s), Done)
    else
      var (t, o) := Flush(s);
      if o == Done then (t.(durable := t.view, inTx := false), Done) else (t, o)
  }

  function Exec(s: State, program: seq<Stmt>): (State, Outcome)
    decreases program
  {
    if program == [] then (s, Done)
    else
      var (t, o) := ExecOne(s, program[0]);
      if o != Done then (t, o) else Exec(t, program[1..])
  }

  function ExecOne(s: State, stmt: Stmt): (State, Outcome)
    decreases stmt
  {
    match stmt
    case Read => if s.health != Alive then (s, Failed) else (s.(inTx := true), Done)
    case Write(k, v) => if s.health != Alive then (s, Failed) else (s.(view := s.view[k := v], inTx := true), Done)
    case CommitSession => if s.deferred then Flush(s) else Commit(s)
    case ReleaseRead => if s.deferred then (s, Failed) else if s.inTx then (Rollback(s), Done) else (s, Done)
    case Refused => (if s.health == Alive then s.(inTx := true, health := StatementRefused) else s, Failed)
    case Raise => (s, Failed)
    case Cancel => (s, Cancelled)
    case Try(body) => var (t, o) := Exec(s, body); (t, if o == Failed then Done else o)
    case Atomic(body) =>
      if s.deferred then Exec(s, body)
      else
        var (t, o) := Exec(s.(deferred := true, inTx := true), body);
        AtomicExit(t, o, s.inTx)
  }

  /** Leaving the outermost block, which either finishes the transaction it found open or leaves the
      one it has begun. Cancellation inside a transaction that was already open is not
      rolled back here; the flag is dropped in every case. */
  function AtomicExit(t: State, o: Outcome, wasOpen: bool): (State, Outcome) {
    match o
    case Done =>
      if t.health != Alive && !wasOpen then
        (Rollback(t).(deferred := false), if (t.health, ByBegin) in t.quiet then Done else Failed)
      else
      var (u, c) := Commit(t);
      if c == Done then (u.(deferred := false), Done) else (Rollback(u).(deferred := false), Failed)
    case Failed => (Rollback(t).(deferred := false), Failed)
    case Cancelled => ((if wasOpen then t else Rollback(t)).(deferred := false), Cancelled)
  }

  // ----- the reference meaning of a block's body -----

  datatype Pending = Pending(view: Rows, health: Health, faults: seq<bool>)

  function PendingOf(s: State): Pending {
    Pending(s.view, s.health, s.faults)
  }

  /** The pending effect of a body: its writes in order, up to the error that ends it or the failure
      that kills the session; nesting means nothing, and neither does an inner commit that can be flushed. */
  function Effect(p: Pending, program: seq<Stmt>): (Pending, Outcome)
    decreases program
  {
    if program == [] then (p, Done)
    else
      var (q, o) := EffectOne(p, program[0]);
      if o != Done then (q, o) else Effect(q, program[1..])
  }

  function EffectOne(p: Pending, stmt: Stmt): (Pending, Outcome)
    decreases stmt
  {
    match stmt
    case Read => (p, if p.health != Alive then Failed else Done)
    case Write(k, v) => if p.health != Alive then (p, Failed) else (p.(view := p.view[k := v]), Done)
    case CommitSession =>
      if p.health != Alive then (p, Failed)
      else if NextFails(p.faults) then (Pending(p.view, FlushFailed, p.faults[1..]), Failed)
      else (p.(faults := Later(p.faults)), Done)
    case ReleaseRead => (p, Failed)
    case Refused => (if p.health == Alive then p.(health := StatementRefused) else p, Failed)
    case Raise => (p, Failed)
    case Cancel => (p, Cancelled)
    case Try(body) => var (q, o) := Effect(p, body); (q, if o == Failed then Done else o)
    case Atomic(body) => Effect(p, body)
  }

  function WithPending(s: State, p: Pending): State {
    s.(view := p.view, health := p.health, faults := p.faults)
  }

  /** Inside a block nothing becomes durable: the session only accumulates the pending effect. */
  lemma {:induction false} InsideIsPending(s: State, program: seq<Stmt>)
    requires s.deferred && s.inTx
    ensures var (p, o) := Effect(PendingOf(s), program);
            Exec(s, program) == (WithPending(s, p), o)
    decreases program
  {
    if program != [] {
      var stmt := program[0];
      match stmt {
        case Try(body) => InsideIsPending(s, body);
        case Atomic(body) => InsideIsPending(s, body);
        case _ =>
      }
      var p := EffectOne(PendingOf(s), stmt).0;
      assert ExecOne(s, stmt) == (WithPending(s, p), EffectOne(PendingOf(s), stmt).1);
      InsideIsPending(WithPending(s, p), program[1..]);
    }
  }

  /** An outermost block keeps its whole pending effect or nothing. It keeps it exactly when the body
      ends normally, every flush and statement got through and the final commit does; then, and only
      then, it ends normally, unless ending the transaction of a dead session is quiet. */
  lemma AllOrNothing(s: State, body: seq<Stmt>)
    requires !s.deferred && Valid(s)
    ensures var (t, o) := Exec(s, [Atomic(body)]);
            var (p, ended) := Effect(PendingOf(s), body);
            var kept := ended == Done && p.health == Alive && !NextFails(p.faults);
            var end := if s.inTx then ByCommit else ByBegin;
            && !t.deferred
            && t.durable == (if kept then p.view else s.durable)
            && (o == Done <==> kept || (ended == Done && p.health != Alive && (p.health, end) in s.quiet))
            && (o != Cancelled ==> t.view == t.durable && !t.inTx && t.health == Alive)
            && (o == Cancelled <==> ended == Cancelled)
            && (o == Cancelled ==> t.view == if s.inTx then p.view else s.durable)
  {
    var inner := s.(deferred := true, inTx := true);
    InsideIsPending(inner, body);
    assert [Atomic(body)][1..] == [];
    var (t, o) := ExecOne(s, Atomic(body));
    assert Exec(s, [Atomic(body)]) == if o != Done then (t, o) else Exec(t, []);
  }

  // ----- a failed flush or statement -----

  lemma {:induction false} DeadStays(p: Pending, program: seq<Stmt>)
    requires p.health != Alive
    ensures Effect(p, program).0 == p
    decreases program
  {
    if program != [] {
      match program[0] {
        case Try(body) => DeadStays(p, body);
        case Atomic(body) => DeadStays(p, body);
        case _ =>
      }
      DeadStays(p, program[1..]);
    }
  }

  /** Once a flush has failed or a statement was refused in a block, nothing of the block is kept, whatever handles the error and
      whatever follows. */
  lemma FailureIsFinal(s: State, before: seq<Stmt>, rest: seq<Stmt>)
    requires !s.deferred && Valid(s) && Effect(PendingOf(s), before).0.health != Alive
    ensures Exec(s, [Atomic(before + rest)]).0.durable == s.durable
  {
    EffectConcat(PendingOf(s), before, rest);
    DeadStays(Effect(PendingOf(s), before).0, rest);
    AllOrNothing(s, before + rest);
  }

  // ----- the flag -----

  predicate Fits(s: State) {
    Valid(s) && (s.deferred ==> s.inTx)
  }

  lemma PlainFits(s: State, stmt: Stmt)
    requires Fits(s) && !stmt.Try? && !stmt.Atomic?
    ensures Fits(ExecOne(s, stmt).0) && ExecOne(s, stmt).0.deferred == s.deferred
  {
  }

  lemma ExitFits(t: State, o: Outcome, wasOpen: bool)
    requires Fits(t) && t.deferred
    ensures Fits(AtomicExit(t, o, wasOpen).0) && !AtomicExit(t, o, wasOpen).0.deferred
  {
  }

  /** For every program, the flag ends as it began and a session without a transaction has nothing
      pending. */
  lemma {:induction false} FlagRestored(s: State, program: seq<Stmt>)
    requires Fits(s)
    ensures Fits(Exec(s, program).0) && Exec(s, program).0.deferred == s.deferred
    decreases program
  {
    if program != [] {
      var stmt := program[0];
      match stmt {
        case Try(body) => FlagRestored(s, body);
        case Atomic(body) =>
          if s.deferred {
            FlagRestored(s, body);
          } else {
            var inner := s.(deferred := true, inTx := true);
            FlagRestored(inner, body);
            ExitFits(Exec(inner, body).0, Exec(inner, body).1, s.inTx);
          }
        case _ => PlainFits(s, stmt);
      }
      FlagRestored(ExecOne(s, stmt).0, program[1..]);
    }
  }

  // ----- outside a block -----

  /** A commit outside a block makes what the session sees durable, or fails and changes nothing
      durable. */
  lemma CommitOutside(s: State)
    requires !s.deferred && s.health == Alive
    ensures var (t, o) := Exec(s, [CommitSession]);
            if NextFails(s.faults) then o == Failed && t.durable == s.durable && t.health != Alive
            else o == Done && t.durable == s.view && t.view == s.view && !t.inTx && t.health == Alive
  {
    SingleExec(s, CommitSession);
  }

  /** Ending a read outside a block changes nothing durable and leaves nothing pending; inside it only
      fails. */
  lemma ReleaseEndsRead(s: State)
    requires Valid(s)
    ensures var (t, o) := Exec(s, [ReleaseRead]);
            if s.deferred then t == s && o == Failed
            else o == Done && t.durable == s.durable && t.view == s.durable && !t.inTx && t.health == Alive
  {
    SingleExec(s, ReleaseRead);
  }

  lemma SingleExec(s: State, stmt: Stmt)
    ensures Exec(s, [stmt]) == ExecOne(s, stmt)
  {
    assert [stmt][1..] == [];
    var (t, o) := ExecOne(s, stmt);
    assert Exec(t, []) == (t, Done);
  }

  lemma {:induction false} ExecConcat(s: State, a: seq<Stmt>, b: seq<Stmt>)
    ensures Exec(s, a + b) == var (t, o) := Exec(s, a); if o != Done then (t, o) else Exec(t, b)
    decreases |a|
  {
    if a == [] {
      assert a + b == b;
    } else {
      assert (a + b)[0] == a[0] && (a + b)[1..] == a[1..] + b;
      ExecConcat(ExecOne(s, a[0]).0, a[1..], b);
    }
  }

  /** Neither commits nor opens a block, at any depth. */
  predicate CommitsNothing(program: seq<Stmt>)
    decreases program
  {
    program == [] ||
    (CommitsNothing(program[1..]) &&
     match program[0]
     case CommitSession => false
     case Atomic(_) => false
     case Try(body) => CommitsNothing(body)
     case _ => true)
  }

  /** Without a commit nothing becomes durable. */
  lemma {:induction false} NothingWithoutCommit(s: State, program: seq<Stmt>)
    requires CommitsNothing(program)
    ensures Exec(s, program).0.durable == s.durable && Exec(s, program).0.deferred == s.deferred
    decreases program
  {
    if program != [] {
      match program[0] {
        case Try(body) => NothingWithoutCommit(s, body);
        case _ =>
      }
      NothingWithoutCommit(ExecOne(s, program[0]).0, program[1..]);
    }
  }

  /** After any program that ends normally outside a block, a commit makes exactly what the session then
      sees durable. */
  lemma CommitKeepsAll(s: State, program: seq<Stmt>)
    requires !s.deferred && Valid(s)
    requires Exec(s, program).1 == Done && Exec(s, program).0.health == Alive
    ensures var t := Exec(s, program).0;
            var (u, o) := Exec(s, program + [CommitSession]);
            if NextFails(t.faults) then o == Failed && u.durable == t.durable
            else o == Done && u.durable == t.view && u.view == t.view && !u.inTx
  {
    FlagRestored(s, program);
    ExecConcat(s, program, [CommitSession]);
    CommitOutside(Exec(s, program).0);
  }

  // ----- writes in batches, each followed by a commit -----

  type Writes = seq<(string, int)>

  /** The rows after some writes, the last of a key winning. */
  function Written(rows: Rows, ws: Writes): Rows {
    if ws == [] then rows else Written(rows, ws[..|ws| - 1])[ws[|ws| - 1].0 := ws[|ws| - 1].1]
  }

  function WrittenAll(rows: Rows, batches: seq<Writes>): Rows {
    if batches == [] then rows
    else Written(WrittenAll(rows, batches[..|batches| - 1]), batches[|batches| - 1])
  }

  function WriteProgram(ws: Writes): seq<Stmt> {
    seq(|ws|, i requires 0 <= i < |ws| => Write(ws[i].0, ws[i].1))
  }

  function BatchProgram(batches: seq<Writes>): seq<Stmt> {
    if batches == [] then []
    else BatchProgram(batches[..|batches| - 1]) + (WriteProgram(batches[|batches| - 1]) + [CommitSession])
  }

  lemma {:induction false} WritesArePending(s: State, ws: Writes)
    requires s.health == Alive
    ensures Exec(s, WriteProgram(ws)) == (s.(view := Written(s.view, ws), inTx := s.inTx || ws != []), Done)
  {
    if ws != [] {
      var front := ws[..|ws| - 1];
      var (k, v) := ws[|ws| - 1];
      WritesArePending(s, front);
      assert WriteProgram(ws) == WriteProgram(front) + [Write(k, v)];
      ExecConcat(s, WriteProgram(front), [Write(k, v)]);
      SingleExec(Exec(s, WriteProgram(front)).0, Write(k, v));
    }
  }

  /** The faults of the commits still to come. */
  function FaultsAfter(faults: seq<bool>, n: nat): seq<bool> {
    if n >= |faults| then [] else faults[n..]
  }

  /** The first n commits get through. */
  predicate NoneFails(faults: seq<bool>, n: nat) {
    forall i | 0 <= i < n && i < |faults| :: !faults[i]
  }

  /** Outside a block every batch is durable once its commit has got through. */
  lemma {:induction false} BatchesAreDurable(s: State, batches: seq<Writes>)
    requires !s.deferred && !s.inTx && Valid(s) && NoneFails(s.faults, |batches|)
    ensures var rows := WrittenAll(s.durable, batches);
            Exec(s, BatchProgram(batches)) ==
            (s.(durable := rows, view := rows, faults := FaultsAfter(s.faults, |batches|)), Done)
  {
    if batches != [] {
      var n := |batches| - 1;
      var front, last := batches[..n], batches[n];
      BatchesAreDurable(s, front);
      ExecConcat(s, BatchProgram(front), WriteProgram(last) + [CommitSession]);
      var t := Exec(s, BatchProgram(front)).0;
      OneBatch(t, last);
      assert FaultsAfter(s.faults, n + 1) == Later(t.faults);
    }
  }

  lemma OneBatch(t: State, ws: Writes)
    requires !t.deferred && !t.inTx && Valid(t)
    ensures var (u, o) := Exec(t, WriteProgram(ws) + [CommitSession]);
            if NextFails(t.faults) then o == Failed && u.durable == t.durable
            else o == Done && u == t.(durable := Written(t.durable, ws), view := Written(t.durable, ws), faults := Later(t.faults))
  {
    WritesArePending(t, ws);
    ExecConcat(t, WriteProgram(ws), [CommitSession]);
    SingleExec(Exec(t, WriteProgram(ws)).0, CommitSession);
  }

  /** When a commit fails, the batches before it stay and its own is lost. */
  lemma FailedBatchIsLost(s: State, before: seq<Writes>, ws: Writes)
    requires !s.deferred && !s.inTx && Valid(s) && NoneFails(s.faults, |before|) && |before| < |s.faults| && s.faults[|before|]
    ensures var (t, o) := Exec(s, BatchProgram(before + [ws]));
            o == Failed && t.durable == WrittenAll(s.durable, before)
  {
    assert (before + [ws])[..|before|] == before;
    BatchesAreDurable(s, before);
    ExecConcat(s, BatchProgram(before), WriteProgram(ws) + [CommitSession]);
    OneBatch(Exec(s, BatchProgram(before)).0, ws);
  }

  // ----- nested blocks dissolve -----

  /** The program with every nested block replaced by its contents. */
  function Flatten(program: seq<Stmt>): seq<Stmt>
    decreases program
  {
    if program == [] then [] else FlattenOne(program[0]) + Flatten(program[1..])
  }

  function FlattenOne(stmt: Stmt): seq<Stmt>
    decreases stmt
  {
    match stmt
    case Atomic(body) => Flatten(body)
    case Try(body) => [Try(Flatten(body))]
    case _ => [stmt]
  }

  lemma {:induction false} EffectConcat(p: Pending, a: seq<Stmt>, b: seq<Stmt>)
    ensures Effect(p, a + b) ==
            var (q, o) := Effect(p, a); if o != Done then (q, o) else Effect(q, b)
    decreases |a|
  {
    if a == [] {
      assert a + b == b;
    } else {
      assert (a + b)[0] == a[0] && (a + b)[1..] == a[1..] + b;
      EffectConcat(EffectOne(p, a[0]).0, a[1..], b);
    }
  }

  lemma {:induction false} FlattenKeepsEffect(p: Pending, program: seq<Stmt>)
    ensures Effect(p, Flatten(program)) == Effect(p, program)
    decreases program
  {
    if program != [] {
      var stmt := program[0];
      var single := FlattenOne(stmt);
      match stmt {
        case Atomic(body) => FlattenKeepsEffect(p, body);
        case Try(body) =>
          FlattenKeepsEffect(p, body);
          SingleEffect(p, Try(Flatten(body)));
        case _ => SingleEffect(p, stmt);
      }
      EffectConcat(p, single, Flatten(program[1..]));
      FlattenKeepsEffect(EffectOne(p, stmt).0, program[1..]);
    }
  }

  lemma SingleEffect(p: Pending, stmt: Stmt)
    ensures Effect(p, [stmt]) == EffectOne(p, stmt)
  {
    assert [stmt][1..] == [];
    var (q, o) := EffectOne(p, stmt);
    assert Effect(q, []) == (q, Done);
  }

  /** A block behaves as if its nested blocks were written out in place. */
  lemma NestedBlocksDissolve(s: State, body: seq<Stmt>)
    requires !s.deferred
    ensures Exec(s, [Atomic(body)]) == Exec(s, [Atomic(Flatten(body))])
  {
    var inner := s.(deferred := true, inTx := true);
    InsideIsPending(inner, body);
    InsideIsPending(inner, Flatten(body));
    FlattenKeepsEffect(PendingOf(s), body);
    assert ExecOne(s, Atomic(body)) == ExecOne(s, Atomic(Flatten(body)));
    assert [Atomic(body)][1..] == [Atomic(Flatten(body))][1..];
  }

  /** Inner errors that are handled inside the block are not undone: there is no savepoint, so what
      was written before them commits with the rest. */
  lemma HandledErrorKeepsWrites(s: State, k: string, v: int)
    requires !s.deferred && Valid(s) && s.health == Alive && !NextFails(s.faults)
    ensures var body := [Try([Atomic([Write(k, v), Raise])])];
            Exec(s, [Atomic(body)]).1 == Done && Exec(s, [Atomic(body)]).0.durable == s.view[k := v]
  {
    var write := [Write(k, v), Raise];
    var body := [Try([Atomic(write)])];
    AllOrNothing(s, body);
    assert write[1..] == [Raise];
    var p, q := PendingOf(s), PendingOf(s).(view := s.view[k := v]);
    SingleEffect(q, Raise);
    assert Effect(p, write) == (q, Failed);
    SingleEffect(p, Atomic(write));
    SingleEffect(p, Try([Atomic(write)]));
  }

  // ----- the session as it is updated -----

  class Session {
    var durable: Rows
    var view: Rows
    var inTx: bool
    var deferCommit: bool
    var health: Health
    var faults: seq<bool>
    const quiet: set<(Health, End)>

    ghost function Snapshot(): State
      reads this
    {
      State(durable, view, inTx, deferCommit, health, faults, quiet)
    }

    constructor (rows: Rows, faults: seq<bool>, quiet: set<(Health, End)>)
      ensures Snapshot() == State(rows, rows, false, false, Alive, faults, quiet)
    {
      durable, view, inTx, deferCommit, health := rows, rows, false, false, Alive;
      this.faults, this.quiet := faults, quiet;
    }

    method DoRollback()
      modifies this
      ensures Snapshot() == Rollback(old(Snapshot()))
    {
      view, inTx, health := durable, false, Alive;
    }

    method DoFlush() returns (o: Outcome)
      modifies this
      ensures (Snapshot(), o) == Flush(old(Snapshot()))
    {
      if health != Alive {
        return Failed;
      }
      inTx := true;
      if faults == [] {
        return Done;
      }
      var fails := faults[0];
      faults := faults[1..];
      if fails {
        health := FlushFailed;
        return Failed;
      }
      return Done;
    }

    method DoCommit() returns (o: Outcome)
      modifies this
      ensures (Snapshot(), o) == Commit(old(Snapshot()))
    {
      if health != Alive && (health, ByCommit) in quiet {
        DoRollback();
        return Done;
      }
      o := DoFlush();
      if o == Done {
        durable, inTx := view, false;
      }
    }

    /** Commit, or only flush inside a block. */
    method CommitOrFlush() returns (o: Outcome)
      modifies this
      ensures (Snapshot(), o) == ExecOne(old(Snapshot()), CommitSession)
    {
      if deferCommit {
        o := DoFlush();
      } else {
        o := DoCommit();
      }
    }

    method ReleaseReadTransaction() returns (o: Outcome)
      modifies this
      ensures (Snapshot(), o) == ExecOne(old(Snapshot()), ReleaseRead)
    {
      if deferCommit {
        return Failed;
      }
      if inTx {
        DoRollback();
      }
      return Done;
    }

    method AtomicSession(body: seq<Stmt>) returns (o: Outcome)
      modifies this
      ensures (Snapshot(), o) == ExecOne(old(Snapshot()), Atomic(body))
      decreases body, 1
    {
      if deferCommit {
        o := Run(body);
        return;
      }
      var wasOpen := inTx;
      deferCommit, inTx := true, true;
      o := Run(body);
      match o {
        case Done =>
          if health != Alive && !wasOpen {
            o := if (health, ByBegin) in quiet then Done else Failed;
            DoRollback();
          } else {
            o := DoCommit();
            if o != Done {
              DoRollback();
            }
          }
        case Failed => DoRollback();
        case Cancelled =>
          if !wasOpen {
            DoRollback();
          }
      }
      deferCommit := false;
    }

    method RunOne(stmt: Stmt) returns (o: Outcome)
      modifies this
      ensures (Snapshot(), o) == ExecOne(old(Snapshot()), stmt)
      decreases stmt, 2
    {
      o := Done;
      match stmt {
        case Read =>
          if health != Alive {
            o := Failed;
          } else {
            inTx := true;
          }
        case Write(k, v) =>
          if health != Alive {
            o := Failed;
          } else {
            view, inTx := view[k := v], true;
          }
        case CommitSession => o := CommitOrFlush();
        case ReleaseRead => o := ReleaseReadTransaction();
        case Refused =>
          o := Failed;
          if health == Alive {
            inTx, health := true, StatementRefused;
          }
        case Raise => o := Failed;
        case Cancel => o := Cancelled;
        case Try(body) =>
          o := Run(body);
          if o == Failed {
            o := Done;
          }
        case Atomic(body) => o := AtomicSession(body);
      }
    }

    method Run(program: seq<Stmt>) returns (o: Outcome)
      modifies this
      ensures (Snapshot(), o) == Exec(old(Snapshot()), program)
      decreases program, 0
    {
      if program == [] {
        return Done;
      }
      o := RunOne(program[0]);
      if o == Done {
        o := Run(program[1..]);
      }
    }
  }
}
