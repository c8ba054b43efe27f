/** `thread_pool` and its users: one main thread hands jobs over through a single slot, workers run them and
complete them in order. Every interleaving of the steps taken under the mutexes is a run of this machine.
A condition variable is modelled by its predicate: a waiting thread goes on when the predicate holds. */
module ThreadPool {
  import opened Completion
  import opened Wrappers

  /** What the main thread is doing. */
  datatype Main =
    | Running
    | Handing               // in `delegate`, until the slot is empty again
    | Computing(job: nat)   // runs a job itself, up to its `sync`
    | Rested                // `wait` has returned and nothing was started since

  datatype Worker = Idle | Busy(job: nat) | Done(job: nat)

  datatype State = State(
    main: Main,
    workers: seq<Worker>,
    slot: Option<nat>,      // `f`
    delegated: nat,
    performed: nat,
    given: seq<nat>,        // callbacks by index; `started` of them
    order: Order,
    submitted: set<nat>)    // indices that reached `sync`

  ghost predicate Init(s: State) {
    && s.main == Running && s.slot == None && s.delegated == s.performed == 0
    && (forall w :: 0 <= w < |s.workers| ==> s.workers[w] == Idle)
    && s.given == [] && s.order == FRESH && s.submitted == {}
  }

  datatype Step =
    | Delegate(callback: nat)
    | Taken
    | Begin(callback: nat)   // a job that must not be delegated, or cannot be without workers
    | Complete
    | Wait
    | Renew
    | Take(worker: nat)
    | Sync(worker: nat)
    | Perform(worker: nat)

  ghost predicate MainFree(s: State) { s.main == Running || s.main == Rested }

  ghost predicate Enabled(s: State, a: Step) {
    match a
    case Delegate(_) => MainFree(s) && s.workers != []
    case Taken => s.main == Handing && s.slot == None
    case Begin(_) => MainFree(s)
    case Complete => s.main.Computing?
    case Wait => MainFree(s) && s.delegated == s.performed
    case Renew => s.main == Rested
    case Take(w) => w < |s.workers| && s.workers[w] == Idle && s.slot.Some?
    case Sync(w) => w < |s.workers| && s.workers[w].Busy?
    case Perform(w) => w < |s.workers| && s.workers[w].Done?
  }

  ghost function Callback(s: State, job: nat): nat { if job < |s.given| then s.given[job] else 0 }

  ghost function Synced(s: State, job: nat): State {
    s.(order := Submit(s.order, job, Callback(s, job)), submitted := s.submitted + {job})
  }

  ghost function After(s: State, a: Step): State
    requires Enabled(s, a)
  {
    match a
    case Delegate(c) =>
      s.(main := Handing, slot := Some(|s.given|), delegated := s.delegated + 1, given := s.given + [c])
    case Taken => s.(main := Running)
    case Begin(c) => s.(main := Computing(|s.given|), given := s.given + [c])
    case Complete => Synced(s, s.main.job).(main := Running)
    case Wait => s.(main := Rested)
    case Renew => s.(main := Running, given := [], order := FRESH, submitted := {})
    case Take(w) => s.(workers := s.workers[w := Busy(s.slot.value)], slot := None)
    case Sync(w) => Synced(s, s.workers[w].job).(workers := s.workers[w := Done(s.workers[w].job)])
    case Perform(w) => s.(workers := s.workers[w := Idle], performed := s.performed + 1)
  }

  // The invariant.

  ghost function InWork(ws: seq<Worker>): nat {
    if ws == [] then 0 else InWork(ws[..|ws| - 1]) + if ws[|ws| - 1] == Idle then 0 else 1
  }

  lemma {:induction false} InWorkUpdate(ws: seq<Worker>, w: nat, x: Worker)
    requires w < |ws|
    ensures InWork(ws[w := x]) + (if ws[w] == Idle then 0 else 1) == InWork(ws) + (if x == Idle then 0 else 1)
  {
    var n := |ws| - 1;
    if w == n {
      assert ws[w := x][..n] == ws[..n];
    } else {
      InWorkUpdate(ws[..n], w, x);
      assert ws[w := x][..n] == ws[..n][w := x];
    }
  }

  lemma {:induction false} NoneInWork(ws: seq<Worker>)
    ensures InWork(ws) == 0 <==> forall w :: 0 <= w < |ws| ==> ws[w] == Idle
  {
    if ws != [] {
      NoneInWork(ws[..|ws| - 1]);
      assert ws == ws[..|ws| - 1] + [ws[|ws| - 1]];
    }
  }

  /** Where a job is. */
  datatype Place = AtMain | InSlot | AtWorker(w: nat)

  ghost predicate Holds(s: State, p: Place, job: nat) {
    match p
    case AtMain => s.main == Computing(job)
    case InSlot => s.slot == Some(job)
    case AtWorker(w) => w < |s.workers| && s.workers[w] == Busy(job)
  }

  /** A job that has not been completed is in exactly one place, one that has been in none. */
  ghost predicate Placed(s: State) {
    && (forall p, job: nat {:trigger Holds(s, p, job)} :: Holds(s, p, job) ==> job < |s.given| && job !in s.submitted)
    && (forall p, q, job: nat {:trigger Holds(s, p, job), Holds(s, q, job)} ::
          Holds(s, p, job) && Holds(s, q, job) ==> p == q)
    && (forall job: nat :: job < |s.given| && job !in s.submitted ==> Somewhere(s, job))
  }

  ghost predicate Somewhere(s: State, job: nat) { exists p :: Holds(s, p, job) }

  ghost predicate Counted(s: State) {
    && s.delegated == s.performed + InWork(s.workers) + (if s.slot.Some? then 1 else 0)
    && (s.slot.Some? ==> s.main == Handing && s.workers != [])
    && (s.main == Rested ==> s.delegated == s.performed)
  }

  ghost predicate Inv(s: State) {
    Placed(s) && Counted(s) && Orderly(s.order, s.given, s.submitted)
  }

  lemma {:induction false} InitInv(s: State)
    requires Init(s)
    ensures Inv(s)
  {
    NoneInWork(s.workers);
  }

  /** The slot is empty whenever the main thread puts something there. */
  lemma {:induction false} SlotNotOverwritten(s: State, c: nat)
    requires Inv(s) && Enabled(s, Delegate(c))
    ensures s.slot == None
  {
  }

  lemma {:induction false} CountedStep(s: State, a: Step)
    requires Counted(s) && Enabled(s, a)
    ensures Counted(After(s, a))
  {
    match a
    case Take(w) => InWorkUpdate(s.workers, w, Busy(s.slot.value));
    case Sync(w) => InWorkUpdate(s.workers, w, Done(s.workers[w].job));
    case Perform(w) => InWorkUpdate(s.workers, w, Idle);
    case _ =>
  }

  /** A job leaves its place and is completed. */
  lemma {:induction false} PlacedSynced(s: State, p: Place, job: nat, s': State)
    requires Placed(s) && Holds(s, p, job) && s'.given == s.given && s'.submitted == s.submitted + {job}
    requires forall q, j: nat {:trigger Holds(s', q, j)} :: Holds(s', q, j) <==> Holds(s, q, j) && q != p
    ensures Placed(s')
  {
    forall j: nat | j < |s'.given| && j !in s'.submitted ensures Somewhere(s', j) {
      assert Somewhere(s, j);
      var q :| Holds(s, q, j);
      assert q != p;
      assert Holds(s', q, j);
    }
    forall q, j: nat | Holds(s', q, j) ensures j < |s'.given| && j !in s'.submitted {
      assert Holds(s, q, j);
    }
  }

  /** A job moves from one place to another, which was free. */
  lemma {:induction false} PlacedMoved(s: State, p: Place, q: Place, job: nat, s': State)
    requires Placed(s) && Holds(s, p, job) && s'.given == s.given && s'.submitted == s.submitted && p != q
    requires forall r, j: nat {:trigger Holds(s', r, j)} ::
      Holds(s', r, j) <==> (r == q && j == job) || (Holds(s, r, j) && r != p && r != q)
    requires forall j: nat :: !Holds(s, q, j)
    ensures Placed(s')
  {
    forall j: nat | j < |s'.given| && j !in s'.submitted ensures Somewhere(s', j) {
      assert Somewhere(s, j);
      var r :| Holds(s, r, j);
      assert Holds(s', if r == p then q else r, j);
    }
    forall r, j: nat | Holds(s', r, j) ensures j < |s'.given| && j !in s'.submitted {
      assert Holds(s, if r == q then p else r, j);
    }
    forall r, t, j: nat | Holds(s', r, j) && Holds(s', t, j) ensures r == t {
      assert Holds(s, if r == q then p else r, j) && Holds(s, if t == q then p else t, j);
    }
  }

  /** A new job appears at a free place. */
  lemma {:induction false} PlacedNew(s: State, q: Place, s': State)
    requires Placed(s) && |s'.given| == |s.given| + 1 && s'.submitted == s.submitted
    requires forall i :: i in s.submitted ==> i < |s.given|
    requires forall r, j: nat {:trigger Holds(s', r, j)} ::
      Holds(s', r, j) <==> (r == q && j == |s.given|) || (Holds(s, r, j) && r != q)
    requires forall j: nat :: !Holds(s, q, j)
    ensures Placed(s')
  {
    forall j: nat | j < |s'.given| && j !in s'.submitted ensures Somewhere(s', j) {
      if j < |s.given| {
        assert Somewhere(s, j);
        var r :| Holds(s, r, j);
        assert Holds(s', r, j);
      } else {
        assert Holds(s', q, j);
      }
    }
    forall r, j: nat | Holds(s', r, j) ensures j < |s'.given| && j !in s'.submitted {
      assert r != q ==> Holds(s, r, j);
    }
    forall r, t, j: nat | Holds(s', r, j) && Holds(s', t, j) ensures r == t {
      assert r != q ==> Holds(s, r, j);
      assert t != q ==> Holds(s, t, j);
    }
  }

  /** Nothing moves. */
  lemma {:induction false} PlacedSame(s: State, s': State)
    requires Placed(s) && s'.given == s.given && s'.submitted == s.submitted
    requires forall r, j: nat {:trigger Holds(s', r, j)} :: Holds(s', r, j) <==> Holds(s, r, j)
    ensures Placed(s')
  {
    forall j: nat | j < |s'.given| && j !in s'.submitted ensures Somewhere(s', j) {
      assert Somewhere(s, j);
      var r :| Holds(s, r, j);
      assert Holds(s', r, j);
    }
    forall r, j: nat | Holds(s', r, j) ensures j < |s'.given| && j !in s'.submitted {
      assert Holds(s, r, j);
    }
    forall r, t, j: nat | Holds(s', r, j) && Holds(s', t, j) ensures r == t {
      assert Holds(s, r, j) && Holds(s, t, j);
    }
  }

  lemma {:induction false} SubmittedKnown(s: State)
    requires Orderly(s.order, s.given, s.submitted)
    ensures forall i :: i in s.submitted ==> i < |s.given|
  {
  }

  lemma {:induction false} MainStep(s: State, a: Step)
    requires Inv(s) && Enabled(s, a) && !a.Take? && !a.Sync? && !a.Perform?
    ensures Inv(After(s, a))
  {
    var s' := After(s, a);
    CountedStep(s, a);
    SubmittedKnown(s);
    match a
    case Delegate(c) =>
      PlacedNew(s, InSlot, s');
      GivenGrows(s.order, s.given, s.submitted, c);
    case Begin(c) =>
      PlacedNew(s, AtMain, s');
      GivenGrows(s.order, s.given, s.submitted, c);
    case Complete =>
      assert Holds(s, AtMain, s.main.job);
      PlacedSynced(s, AtMain, s.main.job, s');
      SubmitOrderly(s.order, s.given, s.submitted, s.main.job);
    case Renew =>
      NoneInWork(s.workers);
    case _ =>
      PlacedSame(s, s');
  }

  lemma {:induction false} WorkerStep(s: State, a: Step)
    requires Inv(s) && Enabled(s, a) && (a.Take? || a.Sync? || a.Perform?)
    ensures Inv(After(s, a))
  {
    var s' := After(s, a);
    CountedStep(s, a);
    match a
    case Take(w) =>
      assert Holds(s, InSlot, s.slot.value);
      PlacedMoved(s, InSlot, AtWorker(w), s.slot.value, s');
    case Sync(w) =>
      assert Holds(s, AtWorker(w), s.workers[w].job);
      PlacedSynced(s, AtWorker(w), s.workers[w].job, s');
      SubmitOrderly(s.order, s.given, s.submitted, s.workers[w].job);
    case _ =>
      PlacedSame(s, s');
  }

  // Whole runs.

  ghost predicate Run(states: seq<State>, steps: seq<Step>) {
    && |states| == |steps| + 1 && Init(states[0])
    && (forall i :: 0 <= i < |steps| ==> Enabled(states[i], steps[i]) && states[i + 1] == After(states[i], steps[i]))
  }

  lemma {:induction false} RunInv(states: seq<State>, steps: seq<Step>, i: nat)
    requires Run(states, steps) && i < |states|
    ensures Inv(states[i])
  {
    if i == 0 {
      InitInv(states[0]);
    } else {
      RunInv(states, steps, i - 1);
      var s, a := states[i - 1], steps[i - 1];
      if a.Take? || a.Sync? || a.Perform? {
        WorkerStep(s, a);
      } else {
        MainStep(s, a);
      }
    }
  }

  /** In every interleaving: the callbacks that have run are those of the first indices, each once and in order. */
  lemma {:induction false} InOrderAlways(states: seq<State>, steps: seq<Step>, i: nat)
    requires Run(states, steps) && i < |states|
    ensures var s := states[i]; s.order.completed <= |s.given| && s.order.log == s.given[..s.order.completed]
  {
    RunInv(states, steps, i);
  }

  /** In every interleaving: the slot is empty when a job is put there. */
  lemma {:induction false} NeverOverwritten(states: seq<State>, steps: seq<Step>, i: nat)
    requires Run(states, steps) && i < |steps| && steps[i].Delegate?
    ensures states[i].slot == None
  {
    RunInv(states, steps, i);
    SlotNotOverwritten(states[i], steps[i].callback);
  }

  /** When `wait` returns, no job is on its way and every callback has run. */
  lemma {:induction false} WaitReturns(states: seq<State>, steps: seq<Step>, i: nat)
    requires Run(states, steps) && i < |steps| && steps[i].Wait?
    ensures var s := states[i];
      s.slot == None && (forall w :: 0 <= w < |s.workers| ==> s.workers[w] == Idle) && s.order.log == s.given
  {
    RunInv(states, steps, i);
    var s := states[i];
    NoneInWork(s.workers);
    forall j | 0 <= j < |s.given| ensures j in s.submitted {
      assert !Somewhere(s, j);
    }
    AllCalled(s.order, s.given, s.submitted);
  }

  /** A thread is at work, unless the main thread is free to go on. */
  lemma {:induction false} NoDeadlock(s: State) returns (a: Step)
    requires Inv(s) && !(MainFree(s) && s.delegated == s.performed)
    ensures Enabled(s, a) && !a.Delegate? && !a.Begin? && !a.Wait? && !a.Renew?
  {
    if s.main.Computing? {
      a := Complete;
    } else if s.main == Handing && s.slot == None {
      a := Taken;
    } else {
      NoneInWork(s.workers);
      if InWork(s.workers) == 0 {
        a := Take(0);
      } else {
        var w: nat :| w < |s.workers| && s.workers[w] != Idle;
        a := if s.workers[w].Busy? then Sync(w) else Perform(w);
      }
    }
  }

  // The steps that need no decision of the main thread come to an end, so `wait` returns.

  function Weight(w: Worker): nat {
    match w case Idle => 0 case Busy(_) => 2 case Done(_) => 1
  }

  ghost function Load(ws: seq<Worker>): nat {
    if ws == [] then 0 else Load(ws[..|ws| - 1]) + Weight(ws[|ws| - 1])
  }

  lemma {:induction false} LoadUpdate(ws: seq<Worker>, w: nat, x: Worker)
    requires w < |ws|
    ensures Load(ws[w := x]) + Weight(ws[w]) == Load(ws) + Weight(x)
  {
    var n := |ws| - 1;
    if w == n {
      assert ws[w := x][..n] == ws[..n];
    } else {
      LoadUpdate(ws[..n], w, x);
      assert ws[w := x][..n] == ws[..n][w := x];
    }
  }

  ghost function Remaining(s: State): nat {
    (if MainFree(s) then 0 else 1) + (if s.slot.Some? then 3 else 0) + Load(s.workers)
  }

  lemma {:induction false} StepsEnd(s: State, a: Step)
    requires Enabled(s, a) && !a.Delegate? && !a.Begin? && !a.Wait? && !a.Renew?
    ensures Remaining(After(s, a)) < Remaining(s)
  {
    match a
    case Take(w) => LoadUpdate(s.workers, w, Busy(s.slot.value));
    case Sync(w) => LoadUpdate(s.workers, w, Done(s.workers[w].job));
    case Perform(w) => LoadUpdate(s.workers, w, Idle);
    case _ =>
  }

  /** From every reachable state the threads get to where `wait` returns. */
  lemma {:induction false} WaitReachable(s: State) returns (steps: seq<Step>, end: State)
    requires Inv(s)
    ensures Leads(s, steps, end) && Inv(end) && Enabled(end, Wait)
    decreases Remaining(s)
  {
    if MainFree(s) && s.delegated == s.performed {
      steps, end := [], s;
    } else {
      var a := NoDeadlock(s);
      StepsEnd(s, a);
      if a.Take? || a.Sync? || a.Perform? {
        WorkerStep(s, a);
      } else {
        MainStep(s, a);
      }
      var rest;
      rest, end := WaitReachable(After(s, a));
      steps := [a] + rest;
    }
  }

  /** The steps lead from `s` to `end`, without a new job. */
  ghost predicate Leads(s: State, steps: seq<Step>, end: State)
    decreases |steps|
  {
    if steps == [] then s == end
    else
      var a := steps[0];
      Enabled(s, a) && !a.Delegate? && !a.Begin? && !a.Wait? && !a.Renew? && Leads(After(s, a), steps[1..], end)
  }
}
