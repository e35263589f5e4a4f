/** Which scheduler process leads: a call answers True while its database session holds one
    shared lock, which the server keeps, and counts, until that session ends. */
module Leadership {
  import opened Tasks

  type Session = nat
  type Pid = nat

  datatype Server = Server(alive: set<Session>, holder: Option<Session>, count: nat, next: Session)

  /** One process: its connection, whether it believes to lead, and the one pooled session. */
  datatype Proc = Proc(conn: Option<Session>, leader: bool, pooled: Option<Session>)

  /** A statement works; or raises because its session is lost; or raises on a session that lives on. */
  datatype Outcome = Works | Lost | Fails(ran: bool)
  /** What closing a connection after a failure does to its session. */
  datatype Closing = Returned | Dropped | Leaked
  datatype Env = Env(connects: bool, outcome: Outcome, closing: Closing)

  function Ended(sv: Server, s: Session): Server {
    var gone := sv.(alive := sv.alive - {s});
    if sv.holder == Some(s) then gone.(holder := None, count := 0) else gone
  }

  predicate Free(sv: Server, s: Session) {
    sv.holder == None || sv.holder == Some(s)
  }

  function Locked(sv: Server, s: Session): Server {
    if Free(sv, s) then sv.(holder := Some(s), count := sv.count + 1) else sv
  }

  // ---- one call --------------------------------------------------------------------

  /** The session a call uses: the open connection, else the pooled session, else a new one. */
  function Uses(sv: Server, p: Proc): Session {
    if p.conn.Some? then p.conn.value else if p.pooled.Some? then p.pooled.value else sv.next
  }

  predicate Opens(p: Proc) { p.conn == None && p.pooled == None }

  predicate Raises(sv: Server, p: Proc, e: Env) {
    if Opens(p) then !e.connects || !e.outcome.Works? else Uses(sv, p) !in sv.alive || !e.outcome.Works?
  }

  function Connected(sv: Server, p: Proc, e: Env): Server {
    if Opens(p) && e.connects then sv.(alive := sv.alive + {sv.next}, next := sv.next + 1) else sv
  }

  /** The server after the one statement of a call: SELECT 1 for a leader, the lock attempt otherwise. */
  function Executed(sv: Server, s: Session, ping: bool, o: Outcome): Server {
    if s !in sv.alive then sv
    else if o.Lost? then Ended(sv, s)
    else if ping || o == Fails(false) then sv
    else Locked(sv, s)
  }

  function Leader(p: Proc): bool { p.conn.Some? && p.leader }

  function ServerAfter(sv: Server, p: Proc, e: Env): Server {
    if Opens(p) && !e.connects then sv
    else
      var s := Uses(sv, p);
      var ran := Executed(Connected(sv, p, e), s, Leader(p), e.outcome);
      if Raises(sv, p, e) && e.closing.Dropped? then Ended(ran, s) else ran
  }

  function ProcAfter(sv: Server, p: Proc, e: Env): Proc {
    var s := Uses(sv, p);
    if Opens(p) && !e.connects then Proc(None, false, None)
    else if Raises(sv, p, e) then
      Proc(None, false, if e.closing.Returned? then Some(s) else None)
    else Proc(Some(s), Leader(p) || Free(sv, s), None)
  }

  function Leads(sv: Server, p: Proc, e: Env): bool {
    !Raises(sv, p, e) && ProcAfter(sv, p, e).leader
  }

  // ---- what a call means to its process ----

  /** The session that a call's statement goes to, if it gets that far. */
  ghost function Reached(sv: Server, q: Proc, e: Env): Option<Session> {
    if q.conn.Some? then q.conn
    else if q.pooled.Some? then q.pooled
    else if e.connects then Some(sv.next)
    else None
  }

  /** No session, a lost one, or a statement that does not work. */
  ghost predicate CallFails(sv: Server, q: Proc, e: Env) {
    || Reached(sv, q, e) == None
    || (Reached(sv, q, e).value !in sv.alive && (q.conn.Some? || q.pooled.Some?))
    || !e.outcome.Works?
  }

  /** A failed call stands down, lets the connection go, and keeps its session only in the pool; one
      that works keeps its connection and leads exactly if it did or the lock is free or its own. */
  ghost predicate CallMeans(sv: Server, q: Proc, e: Env, q': Proc, leads: bool) {
    if CallFails(sv, q, e) then
      !leads && q'.conn == None && !q'.leader && q'.pooled == if e.closing.Returned? then Reached(sv, q, e) else None
    else
      && q'.conn == Reached(sv, q, e) && q'.pooled == None && q'.leader == leads
      && (leads <==> (q.conn.Some? && q.leader) || sv.holder == None || sv.holder == q'.conn)
  }

  lemma CallIsAsMeant(sv: Server, q: Proc, e: Env)
    ensures CallMeans(sv, q, e, ProcAfter(sv, q, e), Leads(sv, q, e))
  {
  }

  /** What a call does to the server: it may open a session, a loss or a dropping close ends it, and
      a lock attempt that runs takes a lock that is free or its own, once more. */
  lemma ServerIsAsMeant(sv: Server, q: Proc, e: Env)
    requires Sound(sv) && Reached(sv, q, e).Some?
    ensures
      var s, sv' := Reached(sv, q, e).value, ServerAfter(sv, q, e);
      var open := if q.conn == None && q.pooled == None then sv.alive + {s} else sv.alive;
      var ends := e.outcome.Lost? || (CallFails(sv, q, e) && e.closing.Dropped?);
      var takes := s in open && !(q.conn.Some? && q.leader) && e.outcome in {Works, Fails(true)} && sv.holder in {None, Some(s)};
      && sv'.alive == (if ends then open - {s} else open)
      && sv'.holder == (if ends && (takes || sv.holder == Some(s)) then None else if takes then Some(s) else sv.holder)
      && sv'.count == (if sv'.holder == None then 0 else if takes then sv.count + 1 else sv.count)
  {
  }

  /** The database as the processes share it. */
  class Postgres {
    var server: Server

    constructor ()
      ensures server == Server({}, None, 0, 0)
    {
      server := Server({}, None, 0, 0);
    }

    method Connect() returns (s: Session)
      modifies this
      ensures s == old(server).next
      ensures server == old(server).(alive := old(server).alive + {s}, next := s + 1)
    {
      s := server.next;
      server := server.(alive := server.alive + {s}, next := s + 1);
    }

    method Execute(s: Session, ping: bool, o: Outcome) returns (raised: bool, value: bool)
      modifies this
      ensures server == Executed(old(server), s, ping, o)
      ensures raised <==> s !in old(server).alive || !o.Works?
      ensures value == (ping || Free(old(server), s))
    {
      value := ping || Free(server, s);
      raised := s !in server.alive || !o.Works?;
      if s in server.alive {
        if o.Lost? {
          End(s);
        } else if !ping && value && o != Fails(false) {
          server := server.(holder := Some(s), count := server.count + 1);
        }
      }
    }

    method End(s: Session)
      modifies this
      ensures server == Ended(old(server), s)
    {
      server := server.(alive := server.alive - {s});
      if server.holder == Some(s) {
        server := server.(holder := None, count := 0);
      }
    }
  }

  class LeaderLock {
    const db: Postgres
    var pooled: Option<Session>
    var conn: Option<Session>
    var leader: bool

    constructor (db: Postgres)
      ensures this.db == db && View() == Proc(None, false, None)
    {
      this.db := db;
      pooled, conn, leader := None, None, false;
    }

    ghost function View(): Proc
      reads this
    {
      Proc(conn, leader, pooled)
    }

    ghost predicate Valid()
      reads this
    {
      conn.Some? ==> pooled == None
    }

    /** Keep or take leadership; any failure stands down and lets the connection go. */
    method IsLeader(e: Env) returns (leads: bool)
      requires Valid()
      modifies this, db
      ensures Valid()
      ensures db.server == ServerAfter(old(db.server), old(View()), e)
      ensures View() == ProcAfter(old(db.server), old(View()), e)
      ensures leads == Leads(old(db.server), old(View()), e)
      ensures CallMeans(old(db.server), old(View()), e, View(), leads)
    {
      CallIsAsMeant(db.server, View(), e);
      if conn == None {
        if pooled.Some? {
          conn, pooled := pooled, None;
        } else if e.connects {
          var s := db.Connect();
          conn := Some(s);
        }
        leader := false;
      }
      if conn == None {
        Reset(e.closing);
        return false;
      }
      var raised, value := db.Execute(conn.value, leader, e.outcome);
      if raised {
        Reset(e.closing);
        return false;
      }
      leader := value;
      return leader;
    }

    method Reset(closing: Closing)
      modifies this, db
      ensures conn == None && !leader
      ensures pooled == if old(conn).Some? && closing.Returned? then old(conn) else old(pooled)
      ensures db.server == if old(conn).Some? && closing.Dropped? then Ended(old(db.server), old(conn).value) else old(db.server)
    {
      if conn.Some? {
        match closing
        case Returned => pooled := conn;
        case Dropped => db.End(conn.value);
        case Leaked =>
      }
      conn, leader := None, false;
    }
  }

  // ---- runs of any number of processes ---------------------------------------------

  datatype State = State(server: Server, procs: map<Pid, Proc>)

  /** A call; the server losing any session; a process dying and starting over (its session may linger). */
  datatype Step = Call(p: Pid, env: Env) | Lose(s: Session) | Restart(p: Pid)

  predicate Enabled(st: State, step: Step) {
    match step
    case Call(p, _) => p in st.procs
    case Lose(_) => true
    case Restart(p) => p in st.procs
  }

  function Next(st: State, step: Step): State
    requires Enabled(st, step)
  {
    match step
    case Call(p, e) => State(ServerAfter(st.server, st.procs[p], e), st.procs[p := ProcAfter(st.server, st.procs[p], e)])
    case Lose(s) => st.(server := Ended(st.server, s))
    case Restart(p) => st.(procs := st.procs[p := Proc(None, false, None)])
  }

  predicate Initial(st: State) {
    && st.server == Server({}, None, 0, 0)
    && forall p | p in st.procs :: st.procs[p] == Proc(None, false, None)
  }

  datatype Run = Run(states: seq<State>, steps: seq<Step>)

  ghost predicate Follows(r: Run) {
    && |r.states| == |r.steps| + 1
    && Initial(r.states[0])
    && forall i {:trigger r.steps[i]} | 0 <= i < |r.steps| ::
        Enabled(r.states[i], r.steps[i]) && r.states[i + 1] == Next(r.states[i], r.steps[i])
  }

  /** Step i of the run is a call by p that returned True. */
  ghost predicate SaysLeader(r: Run, i: nat, p: Pid)
    requires Follows(r) && i < |r.steps|
  {
    r.steps[i].Call? && r.steps[i].p == p && Leads(r.states[i].server, r.states[i].procs[p], r.steps[i].env)
  }

  function Sessions(p: Proc): set<Session> {
    (if p.conn.Some? then {p.conn.value} else {}) + (if p.pooled.Some? then {p.pooled.value} else {})
  }

  ghost predicate Sound(sv: Server) {
    && (forall s | s in sv.alive :: s < sv.next)
    && (sv.holder.Some? ==> sv.holder.value in sv.alive && sv.count >= 1)
    && (sv.holder == None ==> sv.count == 0)
  }

  ghost predicate Backed(sv: Server, p: Proc) {
    && (forall s | s in Sessions(p) :: s < sv.next)
    && (p.conn.Some? ==> p.pooled == None)
    && (p.leader ==> p.conn.Some? && (p.conn.value in sv.alive ==> sv.holder == p.conn))
    && (p.conn.Some? && sv.holder == p.conn ==> p.leader)
  }

  ghost predicate Inv(st: State) {
    && Sound(st.server)
    && (forall p | p in st.procs :: Backed(st.server, st.procs[p]))
    && (forall p, q | p in st.procs && q in st.procs && p != q :: Sessions(st.procs[p]) !! Sessions(st.procs[q]))
  }

  lemma ServerStaysSound(sv: Server, p: Proc, e: Env)
    requires Sound(sv) && Backed(sv, p)
    ensures Sound(ServerAfter(sv, p, e)) && Backed(ServerAfter(sv, p, e), ProcAfter(sv, p, e))
    ensures sv.next <= ServerAfter(sv, p, e).next
    ensures Sessions(ProcAfter(sv, p, e)) <= Sessions(p) + {sv.next}
    ensures ServerAfter(sv, p, e).alive <= sv.alive + {sv.next}
    ensures ServerAfter(sv, p, e).next == sv.next ==> sv.next !in Sessions(ProcAfter(sv, p, e))
  {
    assert Opens(p) || Uses(sv, p) in Sessions(p);
  }

  /** A call leaves a lock held by somebody else's session alone. */
  lemma CallRespectsOthers(sv: Server, p: Proc, e: Env, s: Session)
    requires Sound(sv) && Backed(sv, p) && s !in Sessions(p) && s < sv.next
    ensures s in sv.alive ==> s in ServerAfter(sv, p, e).alive
    ensures s in ServerAfter(sv, p, e).alive ==> s in sv.alive
    ensures sv.holder == Some(s) ==> ServerAfter(sv, p, e).holder == Some(s)
  {
  }

  /** A call never takes the lock for a session that is not its own. */
  lemma CallTakesOwn(sv: Server, p: Proc, e: Env, s: Session)
    requires Sound(sv) && Backed(sv, p) && s !in Sessions(p) && s < sv.next
    ensures ServerAfter(sv, p, e).holder == Some(s) ==> sv.holder == Some(s)
  {
  }

  lemma OthersStayBacked(sv: Server, p: Proc, e: Env, q: Proc)
    requires Sound(sv) && Backed(sv, p) && Backed(sv, q) && Sessions(p) !! Sessions(q)
    ensures Backed(ServerAfter(sv, p, e), q) && Sessions(ProcAfter(sv, p, e)) !! Sessions(q)
  {
    ServerStaysSound(sv, p, e);
    hide ServerAfter, ProcAfter;
    if q.conn.Some? {
      assert q.conn.value in Sessions(q);
      CallRespectsOthers(sv, p, e, q.conn.value);
      CallTakesOwn(sv, p, e, q.conn.value);
    }
  }

  lemma CallKeeps(st: State, p: Pid, e: Env)
    requires Inv(st) && p in st.procs
    ensures Inv(Next(st, Call(p, e)))
  {
    var post := Next(st, Call(p, e));
    assert post.server == ServerAfter(st.server, st.procs[p], e) && post.procs[p] == ProcAfter(st.server, st.procs[p], e);
    ServerStaysSound(st.server, st.procs[p], e);
    hide ServerAfter, ProcAfter, Backed, Sound, Sessions;
    forall q | q in st.procs && q != p
      ensures Backed(post.server, post.procs[q]) && Sessions(post.procs[p]) !! Sessions(post.procs[q])
    {
      OthersStayBacked(st.server, st.procs[p], e, st.procs[q]);
    }
  }

  lemma StepKeeps(st: State, step: Step)
    requires Inv(st) && Enabled(st, step)
    ensures Inv(Next(st, step))
  {
    match step
    case Call(p, e) => CallKeeps(st, p, e);
    case Lose(_) =>
    case Restart(_) =>
  }

  lemma {:induction false} RunsKeep(r: Run, i: nat)
    requires Follows(r) && i < |r.states|
    ensures Inv(r.states[i])
    decreases i
  {
    if i > 0 {
      RunsKeep(r, i - 1);
      StepKeeps(r.states[i - 1], r.steps[i - 1]);
    }
  }

  /** True is returned exactly when the call reaches a live session and the lock is free or its own. */
  lemma TrueMeansHeld(st: State, p: Pid, e: Env)
    requires Inv(st) && p in st.procs
    ensures Leads(st.server, st.procs[p], e) <==> !Raises(st.server, st.procs[p], e) && Free(st.server, Uses(st.server, st.procs[p]))
    ensures Leads(st.server, st.procs[p], e) ==> var post := Next(st, Call(p, e)); post.procs[p].conn.Some? && post.procs[p].leader && post.server.holder == post.procs[p].conn
  {
    assert Backed(st.server, st.procs[p]);
    CallKeeps(st, p, e);
  }

  /** In every run a True answer means the caller's session is alive and holds the lock. */
  lemma LeadsOnlyWithLock(r: Run, i: nat, p: Pid)
    requires Follows(r) && i < |r.steps| && SaysLeader(r, i, p)
    ensures var post := r.states[i + 1]; p in post.procs && post.procs[p].conn.Some? && post.procs[p].conn.value in post.server.alive && post.server.holder == post.procs[p].conn
  {
    RunsKeep(r, i);
    RunsKeep(r, i + 1);
    assert Enabled(r.states[i], r.steps[i]);
    TrueMeansHeld(r.states[i], p, r.steps[i].env);
  }

  /** No two processes lead at once on live sessions. */
  lemma OneLiveLeader(r: Run, i: nat, p: Pid, q: Pid)
    requires Follows(r) && i < |r.states|
    requires p in r.states[i].procs && q in r.states[i].procs
    requires r.states[i].procs[p].leader && r.states[i].procs[p].conn.Some? && r.states[i].procs[p].conn.value in r.states[i].server.alive
    requires r.states[i].procs[q].leader && r.states[i].procs[q].conn.Some? && r.states[i].procs[q].conn.value in r.states[i].server.alive
    ensures p == q
  {
    RunsKeep(r, i);
    var st := r.states[i];
    assert Backed(st.server, st.procs[p]) && Backed(st.server, st.procs[q]);
    assert st.procs[p].conn.value in Sessions(st.procs[p]) && st.procs[q].conn.value in Sessions(st.procs[q]);
  }

  /** The lock stays with its session for as long as that session lives. */
  lemma LockStays(st: State, step: Step, s: Session)
    requires Inv(st) && Enabled(st, step) && st.server.holder == Some(s)
    requires s in Next(st, step).server.alive
    ensures Next(st, step).server.holder == Some(s)
  {
    if step.Call? {
      assert Backed(st.server, st.procs[step.p]);
      if s !in Sessions(st.procs[step.p]) {
        CallRespectsOthers(st.server, st.procs[step.p], step.env, s);
      }
    }
  }

  lemma {:induction false} LockStaysWhileAlive(r: Run, i: nat, j: nat, s: Session)
    requires Follows(r) && i <= j < |r.states| && r.states[i].server.holder == Some(s)
    requires forall k | i <= k <= j :: s in r.states[k].server.alive
    ensures r.states[j].server.holder == Some(s)
    decreases j
  {
    if i < j {
      LockStaysWhileAlive(r, i, j - 1, s);
      RunsKeep(r, j - 1);
      assert Enabled(r.states[j - 1], r.steps[j - 1]) && s in r.states[j].server.alive;
      LockStays(r.states[j - 1], r.steps[j - 1], s);
    }
  }

  lemma {:induction false} SessionsStayApart(r: Run, i: nat, j: nat, p: Pid, q: Pid, s: Session)
    requires Follows(r) && i <= j < |r.states| && p != q
    requires p in r.states[i].procs && s in Sessions(r.states[i].procs[p])
    ensures q in r.states[j].procs ==> s !in Sessions(r.states[j].procs[q])
    ensures s < r.states[j].server.next
    decreases j
  {
    RunsKeep(r, i);
    assert Backed(r.states[i].server, r.states[i].procs[p]);
    if i < j {
      SessionsStayApart(r, i, j - 1, p, q, s);
      RunsKeep(r, j - 1);
      var st, step := r.states[j - 1], r.steps[j - 1];
      assert Enabled(st, step);
      if step.Call? {
        assert Backed(st.server, st.procs[step.p]);
        ServerStaysSound(st.server, st.procs[step.p], step.env);
      }
    }
  }

  /** Leadership passes to another process only after the earlier leader's session was lost. */
  lemma HandoverNeedsLoss(r: Run, i: nat, j: nat, p: Pid, q: Pid)
    requires Follows(r) && i < j < |r.steps| && p != q
    requires SaysLeader(r, i, p) && SaysLeader(r, j, q)
    ensures p in r.states[i + 1].procs && r.states[i + 1].procs[p].conn.Some?
    ensures exists k | i + 1 <= k <= j + 1 :: r.states[i + 1].procs[p].conn.value !in r.states[k].server.alive
  {
    hide Next, Enabled, Leads, Inv;
    LeadsOnlyWithLock(r, i, p);
    LeadsOnlyWithLock(r, j, q);
    var s := r.states[i + 1].procs[p].conn.value;
    assert s in Sessions(r.states[i + 1].procs[p]);
    SessionsStayApart(r, i + 1, j + 1, p, q, s);
    if forall k | i + 1 <= k <= j + 1 :: s in r.states[k].server.alive {
      LockStaysWhileAlive(r, i + 1, j + 1, s);
      assert false;
    }
  }

  lemma {:induction false} IdleKeepsProc(r: Run, i: nat, j: nat, p: Pid)
    requires Follows(r) && i <= j < |r.states| && p in r.states[i].procs
    requires forall k {:trigger r.steps[k]} | i <= k < j :: !ActsOn(r.steps[k], p)
    ensures p in r.states[j].procs && r.states[j].procs[p] == r.states[i].procs[p]
    decreases j
  {
    if i < j {
      IdleKeepsProc(r, i, j - 1, p);
      assert Enabled(r.states[j - 1], r.steps[j - 1]) && !ActsOn(r.steps[j - 1], p);
    }
  }

  /** A process comes back: after a failed call, its next call, when no session holds the lock and
      the statement works, answers True exactly if it can connect, or, if the failed call's session
      went back to the pool, exactly if that session is still alive. */
  lemma FailedCallComesBack(r: Run, i: nat, j: nat, p: Pid)
    requires Follows(r) && i < j < |r.steps| && r.steps[i].Call? && r.steps[j].Call? && r.steps[i].p == p == r.steps[j].p
    requires p in r.states[i].procs && CallFails(r.states[i].server, r.states[i].procs[p], r.steps[i].env)
    requires forall k {:trigger r.steps[k]} | i < k < j :: !ActsOn(r.steps[k], p)
    requires r.states[j].server.holder == None && r.steps[j].env.outcome.Works?
    ensures
      var session := Reached(r.states[i].server, r.states[i].procs[p], r.steps[i].env);
      SaysLeader(r, j, p) <==>
        if r.steps[i].env.closing.Returned? && session.Some? then session.value in r.states[j].server.alive
        else r.steps[j].env.connects
  {
    var st, e := r.states[i], r.steps[i].env;
    assert Enabled(st, r.steps[i]) && r.states[i + 1] == Next(st, r.steps[i]);
    CallIsAsMeant(st.server, st.procs[p], e);
    IdleKeepsProc(r, i + 1, j, p);
    var later := r.states[j];
    CallIsAsMeant(later.server, later.procs[p], r.steps[j].env);
  }

  /** The loss goes unnoticed until the next call: a process in the middle of its cycle acts on
      while another one already leads. */
  lemma OldLeaderActsOn() returns (r: Run)
    ensures Follows(r) && |r.steps| == 3 && SaysLeader(r, 0, 0) && r.steps[1] == Lose(0) && SaysLeader(r, 2, 1)
    ensures r.states[3].procs == map[0 := Proc(Some(0), true, None), 1 := Proc(Some(1), true, None)]
  {
    var idle, works := Proc(None, false, None), Env(true, Works, Leaked);
    var s0 := State(Server({}, None, 0, 0), map[0 := idle, 1 := idle]);
    var s1 := Next(s0, Call(0, works));
    assert s1 == State(Server({0}, Some(0), 1, 1), map[0 := Proc(Some(0), true, None), 1 := idle]);
    var s2 := Next(s1, Lose(0));
    assert s2 == State(Server({}, None, 0, 1), s1.procs);
    r := Run([s0, s1, s2, Next(s2, Call(1, works))], [Call(0, works), Lose(0), Call(1, works)]);
  }

  // ---- the lock's reference count --------------------------------------------------

  /** A call takes the lock again on a session that already holds it. */
  predicate Relocks(st: State, step: Step)
    requires Enabled(st, step)
  {
    && step.Call?
    && !Leader(st.procs[step.p])
    && !Opens(st.procs[step.p])
    && st.server.holder == Some(Uses(st.server, st.procs[step.p]))
    && (step.env.outcome.Works? || (step.env.outcome == Fails(true) && !step.env.closing.Dropped?))
  }

  lemma CountAfter(st: State, step: Step)
    requires Inv(st) && Enabled(st, step) && st.server.count <= 1
    ensures Next(st, step).server.count <= 1 <==> !Relocks(st, step)
  {
    if step.Call? {
      assert Backed(st.server, st.procs[step.p]);
    }
  }

  ghost predicate NeverRelocks(r: Run)
    requires Follows(r)
  {
    forall i {:trigger r.steps[i]} | 0 <= i < |r.steps| :: !Relocks(r.states[i], r.steps[i])
  }

  lemma {:induction false} CountStaysOne(r: Run, i: nat)
    requires Follows(r) && i < |r.states|
    requires forall j {:trigger r.steps[j]} | 0 <= j < i :: !Relocks(r.states[j], r.steps[j])
    ensures r.states[i].server.count <= 1
    decreases i
  {
    if i > 0 {
      CountStaysOne(r, i - 1);
      RunsKeep(r, i - 1);
      assert Enabled(r.states[i - 1], r.steps[i - 1]);
      CountAfter(r.states[i - 1], r.steps[i - 1]);
    }
  }

  // ---- when that happens, in terms of failures --------------------------------------

  /** A call fails on a living session that holds the lock, and its close returns the session to
      the pool. */
  predicate Strands(st: State, p: Pid, e: Env)
    requires p in st.procs
  {
    var sv, q := st.server, st.procs[p];
    var s := Uses(sv, q);
    && e.outcome.Fails? && e.closing.Returned? && s in Connected(sv, q, e).alive
    && Executed(Connected(sv, q, e), s, Leader(q), e.outcome).holder == Some(s)
  }

  predicate ActsOn(step: Step, p: Pid) {
    !step.Lose? && step.p == p
  }

  /** Step i stranded the lock on session s of p; since then p did nothing and s was not lost. */
  ghost predicate StrandedSince(r: Run, i: nat, j: nat, p: Pid, s: Session)
    requires Follows(r)
  {
    && i < j < |r.states| && r.steps[i].Call? && r.steps[i].p == p && p in r.states[i].procs
    && s == Uses(r.states[i].server, r.states[i].procs[p]) && Strands(r.states[i], p, r.steps[i].env)
    && (forall k {:trigger r.steps[k]} | i < k < j :: !ActsOn(r.steps[k], p))
    && (forall k {:trigger r.states[k]} | i < k <= j :: s in r.states[k].server.alive)
  }

  ghost predicate StrandedOn(r: Run, j: nat, p: Pid, s: Session)
    requires Follows(r)
  {
    exists i: nat :: StrandedSince(r, i, j, p, s)
  }

  /** The next call of p will find the lock already held by the session in its pool. */
  predicate Exposed(st: State, p: Pid, s: Session) {
    p in st.procs && st.procs[p].conn == None && st.procs[p].pooled == Some(s) && st.server.holder == Some(s)
  }

  lemma CallExposes(st: State, p: Pid, e: Env, s: Session)
    requires Inv(st) && p in st.procs
    ensures Exposed(Next(st, Call(p, e)), p, s) <==>
      s == Uses(st.server, st.procs[p]) && Strands(st, p, e) && s in Next(st, Call(p, e)).server.alive
  {
    assert Backed(st.server, st.procs[p]);
    CallKeeps(st, p, e);
  }

  lemma IdleKeepsExposed(st: State, step: Step, p: Pid, s: Session)
    requires Inv(st) && Enabled(st, step) && !ActsOn(step, p)
    ensures Exposed(Next(st, step), p, s) <==> Exposed(st, p, s) && s in Next(st, step).server.alive
  {
    StepKeeps(st, step);
    if p in st.procs {
      assert Backed(st.server, st.procs[p]);
      if step.Call? && st.procs[p].pooled == Some(s) {
        assert s in Sessions(st.procs[p]);
        assert Backed(st.server, st.procs[step.p]);
        CallTakesOwn(st.server, st.procs[step.p], step.env, s);
        CallRespectsOthers(st.server, st.procs[step.p], step.env, s);
      }
    }
  }

  /** A process is exposed exactly when its last action stranded the lock and the session lives. */
  lemma {:induction false} ExposedExactly(r: Run, j: nat, p: Pid, s: Session)
    requires Follows(r) && j < |r.states|
    ensures Exposed(r.states[j], p, s) <==> StrandedOn(r, j, p, s)
    decreases j
  {
    if j > 0 {
      hide Next, Inv, Strands, Exposed, Enabled;
      var st, step := r.states[j - 1], r.steps[j - 1];
      assert Enabled(st, step) && r.states[j] == Next(st, step);
      RunsKeep(r, j - 1);
      ExposedExactly(r, j - 1, p, s);
      if !ActsOn(step, p) {
        IdleKeepsExposed(st, step, p, s);
        StrandedIdle(r, j, p, s);
      } else if step.Call? {
        CallIsEnabled(st, step);
        CallExposes(st, p, step.env, s);
        StrandedByLast(r, j, p, s);
      } else {
        RestartClears(st, step, s);
        StrandedByLast(r, j, p, s);
      }
    } else {
      NobodyExposed(r.states[0], p, s);
    }
  }

  lemma NobodyExposed(st: State, p: Pid, s: Session)
    requires Initial(st)
    ensures !Exposed(st, p, s)
  {
  }

  lemma CallIsEnabled(st: State, step: Step)
    requires Enabled(st, step) && step.Call?
    ensures step.p in st.procs
  {
  }

  lemma RestartClears(st: State, step: Step, s: Session)
    requires Enabled(st, step) && step.Restart?
    ensures !Exposed(Next(st, step), step.p, s)
  {
  }

  lemma StrandedIdle(r: Run, j: nat, p: Pid, s: Session)
    requires Follows(r) && 0 < j < |r.states| && !ActsOn(r.steps[j - 1], p)
    ensures StrandedOn(r, j, p, s) <==> StrandedOn(r, j - 1, p, s) && s in r.states[j].server.alive
  {
    hide Next, Strands, Enabled;
    var h := j - 1;
    if StrandedOn(r, j, p, s) {
      var i: nat :| StrandedSince(r, i, j, p, s);
      assert StrandedSince(r, i, h, p, s);
    }
    if StrandedOn(r, h, p, s) && s in r.states[j].server.alive {
      var i: nat :| StrandedSince(r, i, h, p, s);
      assert StrandedSince(r, i, j, p, s);
    }
  }

  lemma StrandedByLast(r: Run, j: nat, p: Pid, s: Session)
    requires Follows(r) && 0 < j < |r.states| && ActsOn(r.steps[j - 1], p)
    ensures StrandedOn(r, j, p, s) <==> StrandedSince(r, j - 1, j, p, s)
  {
    hide Next, Strands, Enabled;
  }

  /** The call's lock attempt, if it makes one, takes effect and its session survives. */
  predicate TakesEffect(e: Env) {
    e.outcome.Works? || (e.outcome == Fails(true) && !e.closing.Dropped?)
  }

  lemma RelocksWhenExposed(st: State, step: Step)
    requires Inv(st) && Enabled(st, step)
    ensures Relocks(st, step) <==> step.Call? && TakesEffect(step.env) && exists s :: Exposed(st, step.p, s)
  {
    if step.Call? {
      assert Backed(st.server, st.procs[step.p]);
      if Relocks(st, step) {
        assert Exposed(st, step.p, Uses(st.server, st.procs[step.p]));
      }
    }
  }

  ghost predicate Stranded(r: Run, j: nat, p: Pid)
    requires Follows(r)
  {
    exists s :: StrandedOn(r, j, p, s)
  }

  lemma RelocksWhenStranded(r: Run, j: nat)
    requires Follows(r) && j < |r.steps|
    ensures Enabled(r.states[j], r.steps[j])
    ensures Relocks(r.states[j], r.steps[j]) <==> r.steps[j].Call? && TakesEffect(r.steps[j].env) && Stranded(r, j, r.steps[j].p)
  {
    hide Next, Inv, Strands, Exposed, Relocks, StrandedOn, TakesEffect;
    RunsKeep(r, j);
    RelocksWhenExposed(r.states[j], r.steps[j]);
    if r.steps[j].Call? {
      forall s: Session ensures Exposed(r.states[j], r.steps[j].p, s) <==> StrandedOn(r, j, r.steps[j].p, s) {
        ExposedExactly(r, j, r.steps[j].p, s);
      }
    }
  }

  /** The count stays at most 1 in exactly the runs where no lock attempt follows, as the next
      action of its process, a failure that stranded the lock on a session still alive. */
  lemma CountIsOneExactly(r: Run)
    requires Follows(r)
    ensures (forall i | 0 <= i < |r.states| :: r.states[i].server.count <= 1)
      <==> (forall j {:trigger r.steps[j]} | 0 <= j < |r.steps| && r.steps[j].Call? && TakesEffect(r.steps[j].env) :: !Stranded(r, j, r.steps[j].p))
  {
    hide Next, Enabled, Relocks, Inv, Stranded, TakesEffect;
    forall j | 0 <= j < |r.steps|
      ensures Enabled(r.states[j], r.steps[j])
      ensures Relocks(r.states[j], r.steps[j]) <==> r.steps[j].Call? && TakesEffect(r.steps[j].env) && Stranded(r, j, r.steps[j].p)
    {
      RelocksWhenStranded(r, j);
    }
    CountNeedsRelock(r);
  }

  lemma CountNeedsRelock(r: Run)
    requires Follows(r)
    ensures NeverRelocks(r) <==> forall i | 0 <= i < |r.states| :: r.states[i].server.count <= 1
  {
    hide Next, Enabled, Relocks, Inv;
    if NeverRelocks(r) {
      forall i | 0 <= i < |r.states| ensures r.states[i].server.count <= 1 {
        CountStaysOne(r, i);
      }
    }
    if forall i | 0 <= i < |r.states| :: r.states[i].server.count <= 1 {
      forall i | 0 <= i < |r.steps| ensures !Relocks(r.states[i], r.steps[i]) {
        RunsKeep(r, i);
        assert r.states[i + 1].server.count <= 1;
        CountAfter(r.states[i], r.steps[i]);
      }
    }
  }

  /** If a failing statement always means a lost session, no session's lock count exceeds 1. */
  lemma CountIsOneIfFailureIsLoss(r: Run, i: nat)
    requires Follows(r) && i < |r.states|
    requires forall j {:trigger r.steps[j]} | 0 <= j < |r.steps| && r.steps[j].Call? :: !r.steps[j].env.outcome.Fails?
    ensures r.states[i].server.count <= 1
  {
    hide Next, Enabled, TakesEffect;
    CountIsOneExactly(r);
  }

  /** Without that, one process can drive the count to any height: each failed check re-locks the pooled session. */
  lemma {:induction false} CountCanStack(n: nat) returns (r: Run)
    ensures Follows(r) && r.states[|r.steps|].server == Server({0}, Some(0), n + 1, 1)
    ensures r.states[|r.steps|].procs == map[0 := Proc(Some(0), true, None)]
  {
    var take := Call(0, Env(true, Works, Leaked));
    if n == 0 {
      var start := State(Server({}, None, 0, 0), map[0 := Proc(None, false, None)]);
      r := Run([start, Next(start, take)], [take]);
    } else {
      var before := CountCanStack(n - 1);
      var st := before.states[|before.steps|];
      var fail := Call(0, Env(true, Fails(false), Returned));
      var mid := Next(st, fail);
      assert mid == State(st.server, map[0 := Proc(None, false, Some(0))]);
      r := Run(before.states + [mid, Next(mid, take)], before.steps + [fail, take]);
    }
  }
}
