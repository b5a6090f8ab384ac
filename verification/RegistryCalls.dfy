/** What the engine has registered under any schedule: the pairs of the Register calls. */
module RegistryCalls {
  import opened Basics
  import opened RegistryMachine
  import opened RegistryProof

  /** A Register call that got past its insertion has its pair in the table. */
  predicate RegisterInv(functions: set<(U32, U32)>, p: Task) {
    p.Doing? && p.call.Register? ==>
      (OfRegister(p.stage) || p.stage.Done?) &&
      (p.stage.RegisterLeave? || p.stage.Done? ==> (p.call.from, p.call.to) in functions)
  }

  ghost predicate RegistersInv(s: Sys) {
    forall t :: t in s.tasks ==> RegisterInv(s.functions, s.tasks[t])
  }

  lemma FunctionsAfter(s: Sys, t: ThreadId, i: Instr)
    requires t in s.tasks && s.tasks[t].Doing? && Enabled(s, t, i)
    ensures var p := s.tasks[t];
            Exec(s, t, i).functions ==
            if i.AddFunction? && p.call.Register? then s.functions + {(p.call.from, p.call.to)} else s.functions
  {
    hide After;
  }

  lemma OwnRegisterInv(s: Sys, t: ThreadId, c: Choice)
    requires CanAdvance(s, t, c) && RegisterInv(s.functions, s.tasks[t])
    ensures RegisterInv(Exec(s, t, Code(s, t, c)).functions, After(s, t, Code(s, t, c)))
  {
    FunctionsAfter(s, t, Code(s, t, c));
    hide Exec;
  }

  lemma MoveRegisters(s: Sys, m: Move)
    requires CanMove(s, m) && RegistersInv(s)
    ensures RegistersInv(Do(s, m)) && s.functions <= Do(s, m).functions
    ensures forall p :: p in Do(s, m).functions && p !in s.functions ==>
                          m.Advance? && s.tasks[m.t].call == Register(p.0, p.1)
  {
    if m.Advance? {
      FunctionsAfter(s, m.t, Code(s, m.t, m.choice));
      OwnRegisterInv(s, m.t, m.choice);
    }
    hide Exec, Code, Enabled, After;
  }

  /** The calls that have been started. */
  function Started(moves: seq<Move>): set<Call> {
    set m | m in moves && m.Start? :: m.call
  }

  /** Every pair of the table and every call in progress was asked for. */
  ghost predicate AskedFor(s: Sys, started: set<Call>) {
    (forall p :: p in s.functions ==> Register(p.0, p.1) in started) &&
    forall t :: t in s.tasks && s.tasks[t].Doing? ==> s.tasks[t].call in started
  }

  lemma MoveAsks(s: Sys, m: Move, started: set<Call>)
    requires CanMove(s, m) && RegistersInv(s) && AskedFor(s, started)
    ensures AskedFor(Do(s, m), started + Started([m]))
  {
    MoveRegisters(s, m);
    hide RegistersInv, Code, Enabled;
    if m.Start? {
      assert m in [m];
      assert m.call in Started([m]);
    } else {
      CallStays(s, m.t, m.choice);
    }
  }

  lemma CallStays(s: Sys, t: ThreadId, c: Choice)
    requires CanAdvance(s, t, c)
    ensures var q := After(s, t, Code(s, t, c)); q.Doing? ==> q.call == s.tasks[t].call
  {
  }

  lemma {:induction false} MovesRegister(s: Sys, moves: seq<Move>, started: set<Call>)
    requires CanMoves(s, moves) && RegistersInv(s) && AskedFor(s, started)
    ensures RegistersInv(DoAll(s, moves)) && AskedFor(DoAll(s, moves), started + Started(moves))
    ensures s.functions <= DoAll(s, moves).functions
    decreases |moves|
  {
    if moves == [] {
      assert started + Started([]) == started;
    } else {
      hide RegistersInv, AskedFor, CanMove, Do;
      MoveRegisters(s, moves[0]);
      MoveAsks(s, moves[0], started);
      assert Started(moves) == Started([moves[0]]) + Started(moves[1..]) by {
        assert moves == [moves[0]] + moves[1..];
      }
      assert started + Started(moves) == (started + Started([moves[0]])) + Started(moves[1..]);
      MovesRegister(Do(s, moves[0]), moves[1..], started + Started([moves[0]]));
    }
  }

  /** After any schedule the engine's table holds a pair only if a Register of it was called, and it
      holds the pair of every Register call that is over; and a pair never leaves it. */
  lemma RegisteredByCalls(threads: set<ThreadId>, rehashing: set<Machine.CellRef>, moves: seq<Move>, more: seq<Move>)
    requires CanMoves(Init(threads, rehashing), moves) && CanMoves(DoAll(Init(threads, rehashing), moves), more)
    ensures var s := DoAll(Init(threads, rehashing), moves);
            (forall p :: p in s.functions ==> Register(p.0, p.1) in Started(moves)) &&
            (forall t :: t in s.tasks && s.tasks[t].Doing? && s.tasks[t].call.Register? && s.tasks[t].stage.Done? ==>
                           (s.tasks[t].call.from, s.tasks[t].call.to) in s.functions) &&
            s.functions <= DoAll(s, more).functions
  {
    var s0 := Init(threads, rehashing);
    MovesRegister(s0, moves, {});
    assert {} + Started(moves) == Started(moves);
    MovesRegister(DoAll(s0, moves), more, Started(moves));
    var s := DoAll(s0, moves);
    hide DoAll, CanMoves;
    forall t | t in s.tasks && s.tasks[t].Doing? && s.tasks[t].call.Register? && s.tasks[t].stage.Done?
      ensures (s.tasks[t].call.from, s.tasks[t].call.to) in s.functions
    {
      assert RegisterInv(s.functions, s.tasks[t]);
    }
  }
}
