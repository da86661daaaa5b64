/** The blocking connection pool of example/MySQLServer/ConnectionPool.h, and the way `Login` in
    example/MySQLServer/LoginRegisterServer.cc uses it. The pool is a monitor: each step below is what
    one thread does between taking the mutex and giving it up, by returning or by waiting. */
module Pool {
  import opened Wire

  type Conn = nat                  // a MYSQL* that was connected
  type Thread = nat

  datatype State = State(
    idle: seq<Conn>,               // pool_
    count: int,                    // currentCount_
    max: int,                      // maxSize_
    lent: set<Conn>,               // handed out, not yet released
    sleeping: set<Thread>,         // inside cond_.wait
    woken: set<Thread>)            // notified or woken spuriously, waiting for the mutex

  datatype Action =
    | Get(t: Thread, made: Option<Conn>)             // made: what createConnection would answer
    | Resume(t: Thread)                              // a woken thread has the mutex again
    | Spurious(t: Thread)
    | Release(c: Conn, notified: Option<Thread>)     // notify_one picks a sleeper if there is one

  datatype Outcome = Got(c: Conn) | Null | Asleep

  function AfterConstruction(made: seq<Option<Conn>>, max: int): State {
    State(Made(made), |Made(made)|, max, {}, {}, {})
  }

  /** The connections that could be created, in order. */
  function Made(made: seq<Option<Conn>>): seq<Conn> {
    if made == [] then []
    else if made[0].Some? then [made[0].value] + Made(made[1..])
    else Made(made[1..])
  }

  /** `at` says which creation each place of the list comes from: in order, none twice, none left out. */
  ghost predicate ComesFrom(made: seq<Option<Conn>>, list: seq<Conn>, at: seq<nat>) {
    Places(made, list, at) && Increasing(at) && Covers(made, at)
  }

  ghost predicate Places(made: seq<Option<Conn>>, list: seq<Conn>, at: seq<nat>) {
    |at| == |list| && forall j :: 0 <= j < |at| ==> at[j] < |made| && made[at[j]] == Some(list[j])
  }

  ghost predicate Increasing(at: seq<nat>) { forall i, j :: 0 <= i < j < |at| ==> at[i] < at[j] }

  ghost predicate Covers(made: seq<Option<Conn>>, at: seq<nat>) {
    forall i :: 0 <= i < |made| && made[i].Some? ==> i in at
  }

  /** The places one further on. */
  function Later(at: seq<nat>): seq<nat> { seq(|at|, j requires 0 <= j < |at| => at[j] + 1) }

  lemma LaterPlaces(first: Option<Conn>, made: seq<Option<Conn>>, list: seq<Conn>, at: seq<nat>)
    requires Places(made, list, at)
    ensures Places([first] + made, list, Later(at))
    ensures first.Some? ==> Places([first] + made, [first.value] + list, [0] + Later(at))
  {
    forall j | 0 <= j < |at| ensures ([first] + made)[Later(at)[j]] == Some(list[j]) {
      assert ([first] + made)[at[j] + 1] == made[at[j]];
    }
  }

  lemma LaterCovers(first: Option<Conn>, made: seq<Option<Conn>>, at: seq<nat>)
    requires Covers(made, at)
    ensures Covers([first] + made, if first.Some? then [0] + Later(at) else Later(at))
  {
    var all, later := [first] + made, Later(at);
    var at' := if first.Some? then [0] + later else later;
    forall i | 0 <= i < |all| && all[i].Some? ensures i in at' {
      if i == 0 {
        assert at'[0] == 0;
      } else {
        var n: nat := i - 1;
        assert all[i] == made[n] && n in at;
        var j :| 0 <= j < |at| && at[j] == n;
        assert later[j] == i;
        assert if first.Some? then at'[j + 1] == i else at'[j] == i;
      }
    }
  }

  lemma LaterIncreasing(at: seq<nat>)
    requires Increasing(at)
    ensures Increasing(Later(at)) && Increasing([0] + Later(at))
  {}

  /** Each connection that was created is in the pool exactly once, in the order of creation, and nothing
      else is. */
  lemma {:induction false} MadeMeans(made: seq<Option<Conn>>) returns (at: seq<nat>)
    ensures ComesFrom(made, Made(made), at)
    decreases |made|
  {
    hide Places, Increasing, Covers, Later;
    if made == [] {
      at := [];
      NothingFrom();
    } else {
      var rest := MadeMeans(made[1..]);
      LaterPlaces(made[0], made[1..], Made(made[1..]), rest);
      LaterCovers(made[0], made[1..], rest);
      LaterIncreasing(rest);
      assert [made[0]] + made[1..] == made;
      at := if made[0].Some? then [0] + Later(rest) else Later(rest);
    }
  }

  lemma NothingFrom()
    ensures ComesFrom([], [], [])
  {}

  predicate Enabled(s: State, a: Action) {
    match a
    case Get(t, made) =>
      t !in s.sleeping && t !in s.woken && (made.Some? ==> made.value !in s.idle && made.value !in s.lent)
    case Resume(t) => t in s.woken
    case Spurious(t) => t in s.sleeping
    case Release(c, notified) =>
      c in s.lent && (if s.sleeping == {} then notified.None? else notified.Some? && notified.value in s.sleeping)
  }

  function OutcomeOf(s: State, a: Action): Outcome {
    match a
    case Get(t, made) =>
      if s.idle == [] && s.count < s.max then (if made.Some? then Got(made.value) else Null)
      else if s.idle == [] then Asleep else Got(s.idle[0])
    case Resume(t) => if s.idle == [] then Asleep else Got(s.idle[0])
    case _ => Null
  }

  function TakeFront(s: State): State
    requires s.idle != []
  {
    s.(idle := s.idle[1..], lent := s.lent + {s.idle[0]})
  }

  function Next(s: State, a: Action): State
    requires Enabled(s, a)
  {
    match a
    case Get(t, made) =>
      if s.idle == [] && s.count < s.max then
        (if made.Some? then s.(count := s.count + 1, lent := s.lent + {made.value}) else s)
      else if s.idle == [] then s.(sleeping := s.sleeping + {t})
      else TakeFront(s)
    case Resume(t) =>
      if s.idle == [] then s.(sleeping := s.sleeping + {t}, woken := s.woken - {t})
      else TakeFront(s.(woken := s.woken - {t}))
    case Spurious(t) => s.(sleeping := s.sleeping - {t}, woken := s.woken + {t})
    case Release(c, notified) =>
      var s' := s.(idle := s.idle + [c], lent := s.lent - {c});
      if notified.None? then s'
      else s'.(sleeping := s.sleeping - {notified.value}, woken := s.woken + {notified.value})
  }

  /** What `getConnection` answers: a new connection as long as none is idle and the pool may grow, null
      only when that one could not be created; it waits exactly when none is idle and the pool is full;
      else the connection that has been idle longest. */
  lemma GetOutcome(s: State, t: Thread, made: Option<Conn>)
    requires Enabled(s, Get(t, made))
    ensures OutcomeOf(s, Get(t, made)).Null? <==> s.idle == [] && s.count < s.max && made.None?
    ensures OutcomeOf(s, Get(t, made)).Asleep? <==> s.idle == [] && s.count >= s.max
    ensures OutcomeOf(s, Get(t, made)).Asleep? <==> t in Next(s, Get(t, made)).sleeping
    ensures OutcomeOf(s, Get(t, made)).Got? ==>
              && OutcomeOf(s, Get(t, made)).c in Next(s, Get(t, made)).lent
              && (if s.idle == [] then Some(OutcomeOf(s, Get(t, made)).c) == made
                 && Next(s, Get(t, made)).count == s.count + 1
                  else OutcomeOf(s, Get(t, made)).c == s.idle[0] && Next(s, Get(t, made)).idle == s.idle[1..])
  {}

  // ---------------------------------------------------------------- the invariant

  ghost predicate Distinct<T(!new)>(s: seq<T>) {
    forall i, j :: 0 <= i < j < |s| ==> s[i] != s[j]
  }

  /** Conservation: no connection is idle twice or idle and lent, and all are accounted for. */
  ghost predicate Conserved(s: State) {
    Distinct(s.idle) && (forall c :: c in s.idle ==> c !in s.lent) && |s.idle| + |s.lent| == s.count
  }

  /** No lost wake-up: while a thread sleeps, every idle connection has a woken thread coming for it. */
  ghost predicate NoLostWakeup(s: State) {
    s.sleeping != {} ==> |s.idle| <= |s.woken|
  }

  ghost predicate Inv(s: State) {
    && Conserved(s) && NoLostWakeup(s)
    && s.sleeping !! s.woken
    && (s.sleeping + s.woken != {} ==> s.count >= s.max)
  }

  lemma TakeFrontConserved(s: State)
    requires Conserved(s) && s.idle != []
    ensures Conserved(TakeFront(s))
  {
    var c := s.idle[0];
    assert forall d :: d in s.idle[1..] ==> exists i :: 1 <= i < |s.idle| && s.idle[i] == d;
    assert |s.lent + {c}| == |s.lent| + 1;
  }

  lemma GetInv(s: State, t: Thread, made: Option<Conn>)
    requires Inv(s) && Enabled(s, Get(t, made))
    ensures Inv(Next(s, Get(t, made)))
  {
    if s.idle != [] {
      TakeFrontConserved(s);
    } else if s.count < s.max && made.Some? {
      assert |s.lent + {made.value}| == |s.lent| + 1;
    }
  }

  lemma ResumeInv(s: State, t: Thread)
    requires Inv(s) && Enabled(s, Resume(t))
    ensures Inv(Next(s, Resume(t)))
  {
    assert |s.woken - {t}| == |s.woken| - 1;
    if s.idle != [] { TakeFrontConserved(s.(woken := s.woken - {t})); }
  }

  lemma ReleaseInv(s: State, c: Conn, notified: Option<Thread>)
    requires Inv(s) && Enabled(s, Release(c, notified))
    ensures Inv(Next(s, Release(c, notified)))
  {
    var s' := Next(s, Release(c, notified));
    assert |s.lent - {c}| == |s.lent| - 1;
    assert forall d :: d in s'.idle ==> d in s.idle || d == c;
    assert c !in s.idle;
    if notified.Some? { assert |s.woken + {notified.value}| == |s.woken| + 1; }
  }

  lemma StepInv(s: State, a: Action)
    requires Inv(s) && Enabled(s, a)
    ensures Inv(Next(s, a)) && Next(s, a).max == s.max && Next(s, a).count >= s.count
    ensures Next(s, a).count <= s.count || Next(s, a).count <= s.max
  {
    match a
    case Get(t, made) => GetInv(s, t, made);
    case Resume(t) => ResumeInv(s, t);
    case Spurious(t) => assert |s.woken + {t}| == |s.woken| + 1;
    case Release(c, notified) => ReleaseInv(s, c, notified);
  }

  // ---------------------------------------------------------------- runs

  ghost predicate RunsTo(s: State, acts: seq<Action>, t: State)
    decreases |acts|
  {
    if acts == [] then t == s
    else Enabled(s, acts[0]) && RunsTo(Next(s, acts[0]), acts[1..], t)
  }

  /** Reachable from a pool constructed with these createConnection answers. */
  ghost predicate Reachable(made: seq<Option<Conn>>, max: int, t: State) {
    Distinct(Made(made)) && exists acts :: RunsTo(AfterConstruction(made, max), acts, t)
  }

  lemma {:induction false} RunInv(s: State, acts: seq<Action>, t: State)
    requires Inv(s) && RunsTo(s, acts, t)
    ensures Inv(t) && t.max == s.max && t.count >= s.count && (t.count <= s.count || t.count <= s.max)
    decreases |acts|
  {
    if acts != [] {
      StepInv(s, acts[0]);
      RunInv(Next(s, acts[0]), acts[1..], t);
    }
  }

  lemma ReachableInv(made: seq<Option<Conn>>, max: int, t: State)
    requires Reachable(made, max, t)
    ensures Inv(t) && t.max == max && |Made(made)| <= t.count && (t.count <= |Made(made)| || t.count <= max)
  {
    var acts :| RunsTo(AfterConstruction(made, max), acts, t);
    RunInv(AfterConstruction(made, max), acts, t);
  }

  /** Conservation over whole runs: idle and lent connections are all distinct and number exactly
      currentCount_; once everything is returned, all of them are idle. */
  lemma PoolConserves(made: seq<Option<Conn>>, max: int, t: State)
    requires Reachable(made, max, t)
    ensures Conserved(t)
    ensures t.lent == {} ==> |t.idle| == t.count
  {
    ReachableInv(made, max, t);
  }

  /** The bound: the pool never holds more than maxSize_ connections if and only if the constructor
      did not already create more. */
  lemma BoundedIffStartedBounded(made: seq<Option<Conn>>, max: int)
    requires Distinct(Made(made))
    ensures (forall t :: Reachable(made, max, t) ==> t.count <= max) <==> |Made(made)| <= max
  {
    var s := AfterConstruction(made, max);
    assert RunsTo(s, [], s);
    assert Reachable(made, max, s);
    forall t | Reachable(made, max, t) ensures |Made(made)| <= max ==> t.count <= max {
      ReachableInv(made, max, t);
    }
  }

  /** No lost wake-up over whole runs: while some thread sleeps, the pool is at its maximum size and
      idle connections never outnumber the woken threads; so either a woken thread is about to take
      one, or a connection is lent out and its release will wake somebody. */
  lemma EverySleeperHasAReleaser(made: seq<Option<Conn>>, max: int, t: State)
    requires Reachable(made, max, t) && t.sleeping != {}
    ensures t.count >= max && |t.idle| <= |t.woken|
    ensures t.idle != [] ==> t.woken != {}
    ensures t.idle == [] && max >= 1 ==> t.lent != {}
  {
    ReachableInv(made, max, t);
  }

  lemma StaysWoken(s: State, a: Action, w: Thread)
    requires Enabled(s, a) && w in s.woken && a != Resume(w)
    ensures w in Next(s, a).woken
  {}

  lemma {:induction false} RunStaysWoken(s: State, acts: seq<Action>, t: State, w: Thread)
    requires RunsTo(s, acts, t) && w in s.woken && Resume(w) !in acts
    ensures w in t.woken
    decreases |acts|
  {
    hide Enabled, Next;
    if acts != [] {
      assert acts[0] in acts;
      StaysWoken(s, acts[0], w);
      assert Resume(w) !in acts[1..];
      RunStaysWoken(Next(s, acts[0]), acts[1..], t, w);
    }
  }

  lemma ResumeOutcome(t: State, w: Thread)
    requires Inv(t) && w in t.woken
    ensures var t' := Next(t, Resume(w));
            if t.idle != [] then OutcomeOf(t, Resume(w)) == Got(t.idle[0]) && w !in t'.woken && w !in t'.sleeping
            else OutcomeOf(t, Resume(w)) == Asleep && w in t'.sleeping && |t.lent| == t.count && t.count >= t.max
  {}

  /** A release while somebody sleeps wakes a sleeper. Whatever other threads do before it has the mutex
      again, the woken thread is not forgotten: it leaves with a connection, or barging threads have
      taken them all, the pool is full and every connection is lent, so that a release is still to come. */
  lemma ReleaseServes(made: seq<Option<Conn>>, max: int, s: State, c: Conn, w: Thread, acts: seq<Action>, t: State)
    requires Reachable(made, max, s) && w in s.sleeping && Enabled(s, Release(c, Some(w)))
    requires RunsTo(Next(s, Release(c, Some(w))), acts, t) && Resume(w) !in acts
    ensures Enabled(t, Resume(w))
    ensures var t' := Next(t, Resume(w));
            if t.idle != [] then OutcomeOf(t, Resume(w)) == Got(t.idle[0]) && w !in t'.woken && w !in t'.sleeping
            else OutcomeOf(t, Resume(w)) == Asleep && w in t'.sleeping && |t.lent| == t.count && t.count >= max
  {
    hide Inv, RunsTo, Reachable, Conserved, NoLostWakeup;
    ReachableInv(made, max, s);
    StepInv(s, Release(c, Some(w)));
    var s' := Next(s, Release(c, Some(w)));
    RunInv(s', acts, t);
    RunStaysWoken(s', acts, t, w);
    ResumeOutcome(t, w);
  }

  // ---------------------------------------------------------------- the class

  class MySQLConnectionPool {
    var pool: seq<Conn>
    var currentCount: int
    var maxSize: int
    ghost var lent: set<Conn>
    ghost var sleeping: set<Thread>
    ghost var woken: set<Thread>

    ghost function View(): State
      reads this
    {
      State(pool, currentCount, maxSize, lent, sleeping, woken)
    }

    /** `made` are the answers of createConnection to the initialSize calls. */
    constructor (made: seq<Option<Conn>>, maxSize: int)
      ensures View() == AfterConstruction(made, maxSize)
      ensures currentCount == |pool| && exists at :: ComesFrom(made, pool, at)
    {
      this.maxSize, currentCount, pool := maxSize, 0, [];
      lent, sleeping, woken := {}, {}, {};
      new;
      for i := 0 to |made|
        invariant pool + Made(made[i..]) == Made(made) && currentCount == |pool|
        invariant this.maxSize == maxSize && lent == {} && sleeping == {} && woken == {}
      {
        assert made[i..][1..] == made[i + 1..];
        if made[i].Some? {
          pool := pool + [made[i].value];
          currentCount := currentCount + 1;
        }
      }
      ghost var at := MadeMeans(made);
    }

    /** `getConnection` up to its first wait. */
    method GetConnection(t: Thread, made: Option<Conn>) returns (r: Outcome)
      requires Enabled(View(), Get(t, made))
      modifies this
      ensures View() == Next(old(View()), Get(t, made)) && r == OutcomeOf(old(View()), Get(t, made))
    {
      if pool == [] && currentCount < maxSize {
        var conn := made;
        if conn.Some? {
          currentCount := currentCount + 1;
          lent := lent + {conn.value};
          return Got(conn.value);
        } else {
          return Null;
        }
      }
      if pool == [] {
        sleeping := sleeping + {t};
        return Asleep;
      }
      var front := pool[0];
      pool := pool[1..];
      lent := lent + {front};
      return Got(front);
    }

    /** One turn of the wait loop of `getConnection`: the thread was woken and has the mutex. */
    method ResumeConnection(t: Thread) returns (r: Outcome)
      requires Enabled(View(), Resume(t))
      modifies this
      ensures View() == Next(old(View()), Resume(t)) && r == OutcomeOf(old(View()), Resume(t))
    {
      woken := woken - {t};
      if pool == [] {
        sleeping := sleeping + {t};
        return Asleep;
      }
      var front := pool[0];
      pool := pool[1..];
      lent := lent + {front};
      return Got(front);
    }

    /** `releaseConnection`; `notified` is the sleeper that notify_one picks. */
    method ReleaseConnection(conn: Option<Conn>, ghost notified: Option<Thread>)
      requires conn.Some? ==> Enabled(View(), Release(conn.value, notified))
      modifies this
      ensures View() == if conn.Some? then Next(old(View()), Release(conn.value, notified)) else old(View())
    {
      if conn.None? { return; }
      pool := pool + [conn.value];
      lent := lent - {conn.value};
      if notified.Some? {
        sleeping := sleeping - {notified.value};
        woken := woken + {notified.value};
      }
    }
  }

  /** What the database answers to the password query. */
  datatype Answer =
    | QueryFailed
    | NoResultSet
    | Rows(rows: seq<Option<bytes>>)       // the first column of each row, which may be null

  /** `Login` behind `getConnection`: whatever the database answers, the connection is released exactly
      once and nothing else about the pool changes; the login succeeds only on the stored password. */
  method LoginWith(pool: MySQLConnectionPool, conn: Option<Conn>, answer: Answer, pwd: bytes,
                   ghost notified: Option<Thread>)
    returns (success: bool)
    requires conn.Some? ==> Enabled(pool.View(), Release(conn.value, notified))
    modifies pool
    ensures pool.View() == if conn.Some? then Next(old(pool.View()), Release(conn.value, notified))
            else old(pool.View())
    ensures success <==> conn.Some? && answer.Rows? && answer.rows != [] && answer.rows[0] == Some(pwd)
  {
    if conn.None? { return false; }
    if answer.QueryFailed? {
      pool.ReleaseConnection(conn, notified);
      return false;
    }
    if answer.NoResultSet? {
      pool.ReleaseConnection(conn, notified);
      return false;
    }
    success := false;
    if |answer.rows| > 0 {
      var row := answer.rows[0];
      if row.Some? { success := row.value == pwd; }
    }
    pool.ReleaseConnection(conn, notified);
  }

  /** While a thread holds a connection nobody else is given it, whatever the other threads do. */
  lemma {:induction false} HeldAlone(s: State, acts: seq<Action>, t: State, c: Conn)
    requires Inv(s) && RunsTo(s, acts, t) && c in s.lent && forall n :: Release(c, n) !in acts
    ensures Inv(t) && c in t.lent
    ensures forall a :: Enabled(t, a) && OutcomeOf(t, a).Got? ==> OutcomeOf(t, a).c != c
    decreases |acts|
  {
    hide NoLostWakeup;
    if acts != [] {
      StepInv(s, acts[0]);
      StaysLent(s, acts[0], c);
      forall n ensures Release(c, n) !in acts[1..] {
        assert Release(c, n) !in acts;
      }
      HeldAlone(Next(s, acts[0]), acts[1..], t, c);
    } else {
      HandsOutOthers(s, c);
    }
  }

  lemma StaysLent(s: State, a: Action, c: Conn)
    requires Enabled(s, a) && c in s.lent && forall n :: a != Release(c, n)
    ensures c in Next(s, a).lent
  {
    if a.Release? { assert a != Release(c, a.notified); }
  }

  lemma HandsOutOthers(s: State, c: Conn)
    requires Conserved(s) && c in s.lent
    ensures forall a :: Enabled(s, a) && OutcomeOf(s, a).Got? ==> OutcomeOf(s, a).c != c
  {
    forall a | Enabled(s, a) && OutcomeOf(s, a).Got? ensures OutcomeOf(s, a).c != c {
      if s.idle != [] { assert s.idle[0] in s.idle; }
    }
  }

  /** A login from the moment it has its connection, at once or after waiting, to its end puts the pool
      back as it was, but for growth: the connection is idle again, lent connections and their number are
      unchanged. Only a login that did not wait can grow the pool. */
  lemma LoginRestores(s: State, get: Action, notified: Option<Thread>)
    requires Inv(s) && (get.Get? || get.Resume?) && Enabled(s, get) && OutcomeOf(s, get).Got?
    requires Enabled(Next(s, get), Release(OutcomeOf(s, get).c, notified))
    ensures var c := OutcomeOf(s, get).c;
            var s2 := Next(Next(s, get), Release(c, notified));
            && s2.lent == s.lent
            && (if s.idle == [] then get.Get? && s2.count == s.count + 1 && s2.idle == [c]
                else s2.count == s.count && c == s.idle[0] && s2.idle == s.idle[1..] + [c])
            && multiset(s2.idle) == (if s.idle == [] then multiset{c} else multiset(s.idle))
  {
    hide NoLostWakeup;
    var c := OutcomeOf(s, get).c;
    NotYetLent(s, get);
    assert s.lent + {c} - {c} == s.lent;
    if s.idle != [] { Rotation(s.idle); } else { assert s.idle + [c] == [c]; }
  }

  lemma NotYetLent(s: State, get: Action)
    requires Conserved(s) && (get.Get? || get.Resume?) && Enabled(s, get) && OutcomeOf(s, get).Got?
    ensures OutcomeOf(s, get).c !in s.lent
  {
    if s.idle != [] { assert s.idle[0] in s.idle; }
  }

  lemma Rotation(idle: seq<Conn>)
    requires idle != []
    ensures multiset(idle[1..] + [idle[0]]) == multiset(idle)
  {
    assert idle == [idle[0]] + idle[1..];
  }
}
