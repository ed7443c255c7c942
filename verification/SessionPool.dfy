/** The pool of logged-in sessions: counting leases, choosing the least loaded
    account, switching accounts, and refilling the pool. */
module SessionPool {
  import opened Common

  const MAX_INFLIGHT_PER_ACCOUNT := 2
  const MUTE_LOGIN_BLOCK_SECONDS := 86400.0
  const STALE_PICK_POOL := 20
  const MIN_EFFECTIVE_PRELOGIN := 4
  const MIN_BOOTSTRAP_SESSIONS := 1

  /** `expiry` is the moment from which the token counts as expired; a session
      without a usable token has none. */
  datatype Session = Session(username: string, valid: bool, expiry: Option<real>)

  predicate Live(s: Session, now: real) { s.valid && s.expiry.Some? && now < s.expiry.value }

  predicate Blocked(blocked: map<string, real>, u: string, now: real) { u in blocked && now < blocked[u] }

  predicate Muted(muted: map<string, real>, u: string, now: real) {
    u in muted && now - muted[u] < MUTE_LOGIN_BLOCK_SECONDS
  }

  // ---- Leases -----------------------------------------------------------

  function Load(inflight: map<string, int>, u: string): int {
    if u in inflight then Max(0, inflight[u]) else 0
  }

  function Bump(inflight: map<string, int>, u: string, delta: int): map<string, int> {
    if u == "" then inflight
    else
      var count := Load(inflight, u) + delta;
      if count <= 0 then inflight - {u} else inflight[u := count]
  }

  /** Leases taken and given back, by username, in any order. */
  datatype LeaseOp = Take(username: string) | GiveBack(username: string)

  datatype Leases = Leases(inflight: map<string, int>, open: multiset<string>)

  /** Every lease that is given back was taken and not given back before. */
  predicate Possible(l: Leases, op: LeaseOp) { op.GiveBack? ==> op.username in l.open }

  function Do(l: Leases, op: LeaseOp): Leases
    requires Possible(l, op)
  {
    match op
    case Take(u) => Leases(Bump(l.inflight, u, 1), l.open + multiset{u})
    case GiveBack(u) => Leases(Bump(l.inflight, u, -1), l.open - multiset{u})
  }

  predicate AllPossible(l: Leases, ops: seq<LeaseOp>)
    decreases |ops|
  {
    ops != [] ==> Possible(l, ops[0]) && AllPossible(Do(l, ops[0]), ops[1..])
  }

  function DoAll(l: Leases, ops: seq<LeaseOp>): Leases
    requires AllPossible(l, ops)
    decreases |ops|
  {
    if ops == [] then l else DoAll(Do(l, ops[0]), ops[1..])
  }

  /** The table is exact: an entry for each name with open leases, and their
      number in it. */
  ghost predicate Exact(l: Leases) {
    && (forall u :: u in l.inflight <==> u != "" && l.open[u] > 0)
    && (forall u :: u in l.inflight ==> l.inflight[u] == l.open[u])
  }

  ghost function Sum(m: map<string, int>): int {
    if m == map[] then 0 else var u :| u in m; m[u] + Sum(m - {u})
  }

  lemma {:induction false} SumTakes(m: map<string, int>, u: string)
    requires u in m
    ensures Sum(m) == m[u] + Sum(m - {u})
    decreases |m|
  {
    var v :| v in m && Sum(m) == m[v] + Sum(m - {v});
    if u != v {
      SumTakes(m - {v}, u);
      SumTakes(m - {u}, v);
      assert m - {v} - {u} == m - {u} - {v};
    }
  }

  lemma SumBump(m: map<string, int>, u: string, delta: int)
    requires u != "" && (u in m ==> m[u] > 0) && Load(m, u) + delta >= 0
    ensures Sum(Bump(m, u, delta)) == Sum(m) + delta
  {
    var t := Bump(m, u, delta);
    if u in m { SumTakes(m, u); } else { assert m - {u} == m; }
    if u in t { SumTakes(t, u); }
    assert t - {u} == m - {u};
  }

  /** One lease operation keeps the table exact, never needs its clamp, and
      moves the total by one for a named account. */
  lemma LeaseStep(l: Leases, op: LeaseOp)
    requires Exact(l) && Possible(l, op)
    requires Sum(l.inflight) == |l.open| - l.open[""]
    ensures Exact(Do(l, op))
    ensures Sum(Do(l, op).inflight) == |Do(l, op).open| - Do(l, op).open[""]
    ensures Load(l.inflight, op.username) == if op.username == "" then 0 else l.open[op.username]
  {
    if op.username != "" { SumBump(l.inflight, op.username, if op.Take? then 1 else -1); }
  }

  /** Whatever leases come and go: the table is exact, and the pool's demand is
      the number of open leases on named accounts. */
  lemma {:induction false} LeasesAreConserved(l: Leases, ops: seq<LeaseOp>)
    requires Exact(l) && Sum(l.inflight) == |l.open| - l.open[""] && AllPossible(l, ops)
    ensures
      var t := DoAll(l, ops);
      Exact(t) && Sum(t.inflight) == |t.open| - t.open[""]
    decreases |ops|
  {
    hide Exact, Do;
    if ops != [] {
      LeaseStep(l, ops[0]);
      LeasesAreConserved(Do(l, ops[0]), ops[1..]);
    }
  }

  lemma NoLeases(ops: seq<LeaseOp>)
    requires AllPossible(Leases(map[], multiset{}), ops)
    requires DoAll(Leases(map[], multiset{}), ops).open == multiset{}
    ensures DoAll(Leases(map[], multiset{}), ops).inflight == map[]
  {
    hide Do;
    LeasesAreConserved(Leases(map[], multiset{}), ops);
  }

  // ---- Choosing a session ----------------------------------------------

  predicate Selectable(s: Session, blocked: map<string, real>, muted: map<string, real>,
                       exclude: Option<string>, now: real) {
    Live(s, now) && !Blocked(blocked, s.username, now) && !Muted(muted, s.username, now)
    && exclude != Some(s.username)
  }

  /** `s` carries no more than any of `among`. */
  predicate LeastLoaded(s: Session, among: seq<Session>, inflight: map<string, int>) {
    s in among && forall t :: t in among ==> Load(inflight, s.username) <= Load(inflight, t.username)
  }

  function UnderCap(ss: seq<Session>, inflight: map<string, int>): (r: seq<Session>)
    ensures forall t :: t in r <==> t in ss && Load(inflight, t.username) < MAX_INFLIGHT_PER_ACCOUNT
  {
    if ss == [] then []
    else (if Load(inflight, ss[0].username) < MAX_INFLIGHT_PER_ACCOUNT then [ss[0]] else [])
         + UnderCap(ss[1..], inflight)
  }

  /** Preferring accounts under the cap never changes the choice: it is the
      least loaded of all, and it is at the cap only when all are. */
  lemma CapIsLeastLoaded(ss: seq<Session>, inflight: map<string, int>, s: Session)
    ensures
      var under := UnderCap(ss, inflight);
      LeastLoaded(s, if under != [] then under else ss, inflight) <==> LeastLoaded(s, ss, inflight)
    ensures LeastLoaded(s, ss, inflight) && Load(inflight, s.username) >= MAX_INFLIGHT_PER_ACCOUNT ==>
      forall t :: t in ss ==> Load(inflight, t.username) >= MAX_INFLIGHT_PER_ACCOUNT
  {
    var under := UnderCap(ss, inflight);
    if under != [] { assert under[0] in under; }
  }

  // ---- Balance ----------------------------------------------------------

  /** No account carries more than one lease more than another. */
  predicate Balanced(users: seq<string>, inflight: map<string, int>) {
    forall u, v :: u in users && v in users ==> Load(inflight, u) <= Load(inflight, v) + 1
  }

  /** Each pick is a least loaded account at its moment. */
  predicate LeastPicks(users: seq<string>, inflight: map<string, int>, picks: seq<string>)
    decreases |picks|
  {
    picks != [] ==>
      && picks[0] in users
      && (forall v :: v in users ==> Load(inflight, picks[0]) <= Load(inflight, v))
      && LeastPicks(users, Bump(inflight, picks[0], 1), picks[1..])
  }

  function After(inflight: map<string, int>, picks: seq<string>): map<string, int>
    decreases |picks|
  {
    if picks == [] then inflight else After(Bump(inflight, picks[0], 1), picks[1..])
  }

  function Total(users: seq<string>, inflight: map<string, int>): int {
    if users == [] then 0 else Load(inflight, users[0]) + Total(users[1..], inflight)
  }

  lemma {:induction false} TotalBump(users: seq<string>, inflight: map<string, int>, u: string)
    requires u in users && u != "" && forall i, j :: 0 <= i < j < |users| ==> users[i] != users[j]
    ensures Total(users, Bump(inflight, u, 1)) == Total(users, inflight) + 1
  {
    if users[0] == u {
      TotalElsewhere(users[1..], inflight, u);
    } else {
      assert u in users[1..];
      TotalBump(users[1..], inflight, u);
    }
  }

  lemma {:induction false} TotalElsewhere(users: seq<string>, inflight: map<string, int>, u: string)
    requires u !in users
    ensures Total(users, Bump(inflight, u, 1)) == Total(users, inflight)
  {
    if users != [] { TotalElsewhere(users[1..], inflight, u); }
  }

  lemma {:induction false} TotalAtLeast(users: seq<string>, inflight: map<string, int>, least: int)
    requires forall u :: u in users ==> Load(inflight, u) >= least
    ensures Total(users, inflight) >= least * |users|
  {
    if users != [] { TotalAtLeast(users[1..], inflight, least); }
  }

  lemma {:induction false} TotalMore(users: seq<string>, inflight: map<string, int>, least: int, k: nat)
    requires k < |users| && Load(inflight, users[k]) > least
    requires forall u :: u in users ==> Load(inflight, u) >= least
    ensures Total(users, inflight) > least * |users|
  {
    hide Load;
    TotalAtLeast(users[1..], inflight, least);
    var n := |users| - 1;
    assert least * |users| == least * n + least;
    if k > 0 { TotalMore(users[1..], inflight, least, k - 1); }
  }

  /** One more pick of a least loaded account continues a run of picks. */
  lemma {:induction false} PickAfter(users: seq<string>, inflight: map<string, int>, picks: seq<string>, u: string)
    requires LeastPicks(users, inflight, picks) && u in users
    requires forall v :: v in users ==> Load(After(inflight, picks), u) <= Load(After(inflight, picks), v)
    ensures LeastPicks(users, inflight, picks + [u])
    ensures After(inflight, picks + [u]) == Bump(After(inflight, picks), u, 1)
    decreases |picks|
  {
    hide Load, Bump;
    if picks == [] {
      assert picks + [u] == [u] && [u][1..] == [];
      assert After(inflight, [u]) == After(Bump(inflight, u, 1), []);
    } else {
      assert (picks + [u])[1..] == picks[1..] + [u];
      PickAfter(users, Bump(inflight, picks[0], 1), picks[1..], u);
    }
  }

  predicate Names(users: seq<string>) {
    "" !in users && forall i, j :: 0 <= i < j < |users| ==> users[i] != users[j]
  }

  /** Any run of leases without a release keeps a balanced pool balanced. */
  lemma {:induction false} PicksStayBalanced(users: seq<string>, inflight: map<string, int>, picks: seq<string>)
    requires Names(users) && Balanced(users, inflight) && LeastPicks(users, inflight, picks)
    ensures Balanced(users, After(inflight, picks))
    ensures Total(users, After(inflight, picks)) == Total(users, inflight) + |picks|
    decreases |picks|
  {
    if picks != [] {
      TotalBump(users, inflight, picks[0]);
      PicksStayBalanced(users, Bump(inflight, picks[0], 1), picks[1..]);
    }
  }

  /** From an idle pool no account goes over the cap before every account is
      full: as many leases as the pool has places never exceed it. */
  lemma CapHoldsWhileThereIsRoom(users: seq<string>, picks: seq<string>, u: string)
    requires Names(users) && LeastPicks(users, map[], picks) && u in users
    requires |picks| <= MAX_INFLIGHT_PER_ACCOUNT * |users|
    ensures Load(After(map[], picks), u) <= MAX_INFLIGHT_PER_ACCOUNT
  {
    PicksStayBalanced(users, map[], picks);
    TotalIdle(users);
    var m := After(map[], picks);
    if Load(m, u) > MAX_INFLIGHT_PER_ACCOUNT {
      var k :| 0 <= k < |users| && users[k] == u;
      assert forall v :: v in users ==> Load(m, v) >= MAX_INFLIGHT_PER_ACCOUNT;
      TotalMore(users, m, MAX_INFLIGHT_PER_ACCOUNT, k);
      assert false;
    }
  }

  lemma {:induction false} TotalIdle(users: seq<string>)
    ensures Total(users, map[]) == 0
  {
    if users != [] { TotalIdle(users[1..]); }
  }

  // ---- The list of sessions --------------------------------------------

  function Usernames(ss: seq<Session>): (r: seq<string>)
    ensures |r| == |ss| && forall k :: 0 <= k < |ss| ==> r[k] == ss[k].username
  {
    if ss == [] then [] else [ss[0].username] + Usernames(ss[1..])
  }

  predicate Distinct(ss: seq<Session>) {
    forall i, j :: 0 <= i < j < |ss| ==> ss[i].username != ss[j].username
  }

  function Kept(ss: seq<Session>, keep: Session -> bool): (r: seq<Session>)
    ensures |r| <= |ss| && forall s :: s in r <==> s in ss && keep(s)
  {
    if ss == [] then [] else (if keep(ss[0]) then [ss[0]] else []) + Kept(ss[1..], keep)
  }

  lemma {:induction false} KeptDistinct(ss: seq<Session>, keep: Session -> bool)
    requires Distinct(ss)
    ensures Distinct(Kept(ss, keep))
  {
    if ss != [] {
      KeptDistinct(ss[1..], keep);
      assert forall s :: s in ss[1..] ==> s.username != ss[0].username;
    }
  }

  /** A login replaces the session of its account, or comes last. */
  function ReplaceOrAppend(ss: seq<Session>, new_: Session): (r: seq<Session>)
    ensures new_ in r
    ensures forall s: Session :: s.username != new_.username ==> (s in r <==> s in ss)
    ensures |ss| <= |r| <= |ss| + 1
    ensures forall k :: 0 <= k < |ss| ==> r[k].username == ss[k].username
  {
    if ss == [] then [new_]
    else if ss[0].username == new_.username then [new_] + ss[1..]
    else [ss[0]] + ReplaceOrAppend(ss[1..], new_)
  }

  lemma DistinctCons(s: Session, rest: seq<Session>)
    requires Distinct(rest) && forall t :: t in rest ==> t.username != s.username
    ensures Distinct([s] + rest)
  {}

  lemma {:induction false} ReplaceDistinct(ss: seq<Session>, new_: Session)
    requires Distinct(ss)
    ensures Distinct(ReplaceOrAppend(ss, new_))
    ensures forall s :: s in ReplaceOrAppend(ss, new_) && s.username == new_.username ==> s == new_
  {
    if ss != [] {
      var rest := ss[1..];
      assert Distinct(rest);
      assert forall s :: s in rest ==> s.username != ss[0].username;
      if ss[0].username != new_.username {
        ReplaceDistinct(rest, new_);
        DistinctCons(ss[0], ReplaceOrAppend(rest, new_));
      } else {
        DistinctCons(new_, rest);
      }
    }
  }

  function Ready(ss: seq<Session>, now: real): nat {
    if ss == [] then 0 else (if Live(ss[0], now) then 1 else 0) + Ready(ss[1..], now)
  }

  /** The number of sessions that are valid and not expired. */
  lemma {:induction false} ReadyCounts(ss: seq<Session>, now: real)
    ensures Ready(ss, now) == |set k | 0 <= k < |ss| && ss[k].valid && ss[k].expiry.Some? && now < ss[k].expiry.value|
    decreases |ss|
  {
    if ss != [] {
      var n := |ss| - 1;
      ReadySnoc(ss[..n], ss[n], now);
      assert ss[..n] + [ss[n]] == ss;
      ReadyCounts(ss[..n], now);
      var all := set k | 0 <= k < |ss| && ss[k].valid && ss[k].expiry.Some? && now < ss[k].expiry.value;
      var front := set k | 0 <= k < n && ss[..n][k].valid && ss[..n][k].expiry.Some?
                           && now < ss[..n][k].expiry.value;
      assert all == if Live(ss[n], now) then front + {n} else front;
    }
  }

  lemma {:induction false} ReadySnoc(ss: seq<Session>, s: Session, now: real)
    ensures Ready(ss + [s], now) == Ready(ss, now) + if Live(s, now) then 1 else 0
  {
    if ss == [] {
      assert ss + [s] == [s] && [s][1..] == [];
    } else {
      ReadySnoc(ss[1..], s, now);
      assert (ss + [s])[1..] == ss[1..] + [s];
    }
  }

  /** A live session moves to the place that counts the live ones before it. */
  lemma {:induction false} LivePlace(ss: seq<Session>, k: nat, now: real)
    requires k < |ss| && Live(ss[k], now)
    ensures
      var kept, place := Kept(ss, s => Live(s, now)), Ready(ss[..k], now);
      place < |kept| && kept[place] == ss[k]
  {
    var keep := (s: Session) => Live(s, now);
    if k > 0 {
      LivePlace(ss[1..], k - 1, now);
      assert ss[..k][1..] == ss[1..][..k - 1];
      assert Kept(ss, keep) == (if keep(ss[0]) then [ss[0]] else []) + Kept(ss[1..], keep);
    } else {
      assert Kept(ss, keep) == [ss[0]] + Kept(ss[1..], keep);
    }
  }

  /** When expired sessions leave, the index stays where it is, or is 0 if it falls
      off the end. So it still means the session it meant before if and only if no
      session before that one left, or it falls off and is the first one left. */
  lemma CurrentStays(ss: seq<Session>, k: nat, now: real)
    requires k < |ss| && Live(ss[k], now) && Distinct(ss)
    ensures
      var kept, place := Kept(ss, s => Live(s, now)), Ready(ss[..k], now);
      var index := if k < |kept| then k else 0;
      kept != [] && (kept[index].username == ss[k].username <==> place == index)
  {
    LivePlace(ss, k, now);
    KeptDistinct(ss, s => Live(s, now));
  }

  lemma {:induction false} ReplaceAddsOne(ss: seq<Session>, new_: Session, now: real)
    ensures Ready(ReplaceOrAppend(ss, new_), now) <= Ready(ss, now) + 1
  {
    if ss != [] {
      if ss[0].username == new_.username {
        assert ([new_] + ss[1..])[1..] == ss[1..];
      } else {
        ReplaceAddsOne(ss[1..], new_, now);
        assert ReplaceOrAppend(ss, new_)[1..] == ReplaceOrAppend(ss[1..], new_);
      }
    }
  }

  // ---- Which account to log in -----------------------------------------

  /** How stale an account is: the time of its last login. */
  predicate Staler(history: map<string, real>, a: string, b: string) {
    a !in history || (b in history && history[a] <= history[b])
  }

  ghost predicate Leaves(accounts: seq<string>, history: map<string, real>, names: seq<string>, rest: seq<string>) {
    && multiset(names) + multiset(rest) == multiset(accounts)
    && forall a, b :: a in names && b in rest ==> a !in history || (b in history && history[a] <= history[b])
  }

  /** `names` are 20 accounts none of which was used after one left out. */
  ghost predicate Stalest(accounts: seq<string>, history: map<string, real>, names: seq<string>) {
    && |names| == STALE_PICK_POOL
    && exists rest: seq<string> :: Leaves(accounts, history, names, rest)
  }

  function Insert(history: map<string, real>, a: string, sorted: seq<string>): seq<string> {
    if sorted == [] then [a]
    else if Staler(history, a, sorted[0]) then [a] + sorted
    else [sorted[0]] + Insert(history, a, sorted[1..])
  }

  lemma {:induction false} InsertKeepsAll(history: map<string, real>, a: string, sorted: seq<string>)
    ensures multiset(Insert(history, a, sorted)) == multiset(sorted) + multiset{a}
  {
    hide Staler;
    if sorted != [] {
      InsertKeepsAll(history, a, sorted[1..]);
      assert sorted == [sorted[0]] + sorted[1..];
    }
  }

  lemma {:induction false} InsertOrders(history: map<string, real>, a: string, sorted: seq<string>)
    requires Ordered(history, sorted)
    ensures Ordered(history, Insert(history, a, sorted))
  {
    if sorted != [] && !Staler(history, a, sorted[0]) {
      var rest := Insert(history, a, sorted[1..]);
      InsertOrders(history, a, sorted[1..]);
      InsertKeepsAll(history, a, sorted[1..]);
      forall k | 0 <= k < |rest| ensures Staler(history, sorted[0], rest[k]) {
        assert rest[k] in multiset(rest);
        assert rest[k] == a || rest[k] in sorted[1..];
      }
    }
  }

  ghost predicate Ordered(history: map<string, real>, s: seq<string>) {
    forall i, j :: 0 <= i < j < |s| ==> s[i] !in history || (s[j] in history && history[s[i]] <= history[s[j]])
  }

  /** The accounts from the stalest to the most recently used. */
  method SortByStaleness(accounts: seq<string>, history: map<string, real>) returns (sorted: seq<string>)
    ensures multiset(sorted) == multiset(accounts) && Ordered(history, sorted)
  {
    sorted := [];
    for k := 0 to |accounts|
      invariant multiset(sorted) == multiset(accounts[..k]) && Ordered(history, sorted)
    {
      assert accounts[..k + 1] == accounts[..k] + [accounts[k]];
      InsertKeepsAll(history, accounts[k], sorted);
      InsertOrders(history, accounts[k], sorted);
      sorted := Insert(history, accounts[k], sorted);
    }
    assert accounts[..|accounts|] == accounts;
  }

  function Filter(names: seq<string>, among: set<string>): (r: seq<string>)
    ensures forall a :: a in r <==> a in names && a in among
  {
    if names == [] then [] else (if names[0] in among then [names[0]] else []) + Filter(names[1..], among)
  }

  predicate NoneOf(names: seq<string>, eligible: set<string>) { forall a :: a in names ==> a !in eligible }

  /** Picks an eligible account: one never used if there is any; otherwise, in
      a large pool, one of the 20 stalest if one of those is eligible. */
  method PickAccount(accounts: seq<string>, history: map<string, real>, eligible: set<string>)
    returns (pick: Option<string>)
    ensures pick.None? <==> forall a :: a in accounts ==> a !in eligible
    ensures pick.Some? ==> pick.value in accounts && pick.value in eligible
    ensures pick.Some? && pick.value in history ==>
      forall a :: a in accounts && a in eligible ==> a in history
    ensures |accounts| >= STALE_PICK_POOL && pick.Some? && pick.value in history ==>
      exists names :: Stalest(accounts, history, names) && (pick.value in names || NoneOf(names, eligible))
  {
    var pool := Filter(accounts, eligible);
    if pool == [] {
      assert forall a :: a in accounts && a in eligible ==> a in pool;
      return None;
    }
    assert pool[0] in pool;
    var unused := Filter(pool, (set a | a in pool) - history.Keys);
    if unused != [] {
      assert unused[0] in unused;
      var f: string :| f in unused;
      return Some(f);
    }
    assert forall a :: a in pool && a !in history ==> a in unused;
    if |accounts| >= STALE_PICK_POOL {
      pool := PreferStalest(accounts, history, eligible, pool);
    }
    var p: string :| p in pool;
    pick := Some(p);
  }

  method PreferStalest(accounts: seq<string>, history: map<string, real>, eligible: set<string>, pool: seq<string>)
    returns (best: seq<string>)
    requires |accounts| >= STALE_PICK_POOL && pool != []
    requires forall a :: a in pool <==> a in accounts && a in eligible
    ensures (exists a :: a in best) && forall a :: a in best ==> a in pool
    ensures exists names ::
      Stalest(accounts, history, names) && ((forall a :: a in best ==> a in names) || NoneOf(names, eligible))
  {
    var sorted := SortByStaleness(accounts, history);
    SameLength(sorted, accounts);
    var names := sorted[..STALE_PICK_POOL];
    FirstAreStalest(accounts, history, sorted);
    var stale := Filter(pool, set a | a in names);
    if stale != [] {
      assert stale[0] in stale;
      best := stale;
    } else {
      forall a | a in names ensures a !in eligible {
        InSorted(sorted, accounts, a);
        assert a in pool ==> a in stale;
      }
      assert pool[0] in pool;
      best := pool;
    }
  }

  lemma InSorted(sorted: seq<string>, accounts: seq<string>, a: string)
    requires multiset(sorted) == multiset(accounts) && a in sorted
    ensures a in multiset(sorted) && a in accounts
  {
    assert a in multiset(accounts);
  }

  lemma SameLength(a: seq<string>, b: seq<string>)
    requires multiset(a) == multiset(b)
    ensures |a| == |b|
  {
    assert |multiset(a)| == |multiset(b)|;
  }

  lemma FirstAreStalest(accounts: seq<string>, history: map<string, real>, sorted: seq<string>)
    requires multiset(sorted) == multiset(accounts) && Ordered(history, sorted) && |sorted| >= STALE_PICK_POOL
    ensures Stalest(accounts, history, sorted[..STALE_PICK_POOL])
  {
    var names, rest := sorted[..STALE_PICK_POOL], sorted[STALE_PICK_POOL..];
    assert sorted == names + rest;
    forall a, b | a in names && b in rest ensures Staler(history, a, b) {
      var i :| 0 <= i < |names| && names[i] == a;
      var j :| 0 <= j < |rest| && rest[j] == b;
      assert sorted[i] == a && sorted[STALE_PICK_POOL + j] == b;
    }
    assert Leaves(accounts, history, names, rest);
  }

  // ---- How many sessions to keep ready ---------------------------------

  /** `configured` is the configured target, `concurrent` the concurrency
      limit of the server. */
  function PreloginCap(configured: int, concurrent: int): int {
    var base := Max(0, configured);
    if concurrent <= 0 then base else Min(base, Max(MIN_EFFECTIVE_PRELOGIN, concurrent / 2))
  }

  function Headroom(concurrent: int): int { if concurrent <= 0 then 8 else Max(2, concurrent / 4) }

  function Target(count: Option<int>, configured: int, concurrent: int, demand: int, signalled: bool): int {
    if count.Some? then Max(0, count.value)
    else
      var cap := PreloginCap(configured, concurrent);
      if demand <= 0 && !signalled then Min(cap, MIN_BOOTSTRAP_SESSIONS)
      else Min(cap, Max(MIN_BOOTSTRAP_SESSIONS, demand + Headroom(concurrent)))
  }

  /** The computed target lies between none and the cap and grows with demand
      and with a replenish signal. */
  lemma TargetIsBounded(configured: int, concurrent: int, d: int, e: int, signalled: bool)
    requires d <= e
    ensures 0 <= Target(None, configured, concurrent, d, signalled) <= PreloginCap(configured, concurrent)
    ensures Target(None, configured, concurrent, d, signalled) <= Target(None, configured, concurrent, e, signalled)
    ensures 0 <= d ==>
      Target(None, configured, concurrent, d, false) <= Target(None, configured, concurrent, d, true)
    ensures PreloginCap(configured, concurrent) <= Max(0, configured)
    ensures 1 <= configured ==> 1 <= Target(None, configured, concurrent, d, signalled)
  {
    hide Headroom;
    assert Headroom(concurrent) >= 2 by { HeadroomIsRoom(concurrent); }
  }

  /** The target reaches `k` if and only if that is configured, at most half the
      concurrency limit or 4, and, beyond the first session, there is demand or a
      signal and no more than the room asked for on top: 8 without a limit, else 2
      or a quarter of it. */
  lemma TargetMeans(configured: int, concurrent: int, demand: int, signalled: bool, k: int)
    requires k >= 1
    ensures
      k <= Target(None, configured, concurrent, demand, signalled) <==>
      && k <= configured && (concurrent <= 0 || k <= 4 || 2 * k <= concurrent)
      && (k == 1 || ((demand > 0 || signalled)
                     && if concurrent <= 0 then k - demand <= 8
                        else k - demand <= 2 || 4 * (k - demand) <= concurrent))
    ensures forall count :: k <= Target(Some(count), configured, concurrent, demand, signalled) <==> k <= count
  {}

  lemma HeadroomIsRoom(concurrent: int)
    ensures Headroom(concurrent) >= 2
  {}
}
