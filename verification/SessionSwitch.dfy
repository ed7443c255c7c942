/** The session pool at work. Logging in is an oracle: it may fail, and when it
    succeeds it returns a session of the account it was asked for. */
module SessionSwitch {
  import opened Common
  import opened SessionPool

  class Pool {
    const accounts: seq<string>
    var sessions: seq<Session>
    var currentIndex: int
    var blocked: map<string, real>
    var muted: map<string, real>
    var inflight: map<string, int>
    var history: map<string, real>

    constructor (accounts: seq<string>, sessions: seq<Session>, muted: map<string, real>)
      ensures this.accounts == accounts && this.sessions == sessions && this.muted == muted
      ensures currentIndex == 0 && blocked == map[] && inflight == map[] && history == map[]
    {
      this.accounts, this.sessions, this.muted := accounts, sessions, muted;
      currentIndex, blocked, inflight, history := 0, map[], map[], map[];
    }

    predicate Offers(s: Session, exclude: Option<string>, now: real)
      reads this`sessions, this`blocked, this`muted
    {
      s in sessions && Selectable(s, blocked, muted, exclude, now)
    }

    /** A session on offer that carries no more than any other on offer. */
    ghost predicate Lightest(s: Session, exclude: Option<string>, now: real)
      reads this`sessions, this`blocked, this`muted, this`inflight
    {
      && Offers(s, exclude, now)
      && forall t :: Offers(t, exclude, now) ==> Load(inflight, s.username) <= Load(inflight, t.username)
    }

    method BumpInflight(username: string, delta: int)
      modifies this`inflight
      ensures inflight == Bump(old(inflight), username, delta)
    {
      if username == "" { return; }
      var count := Load(inflight, username) + delta;
      if count <= 0 { inflight := inflight - {username}; } else { inflight := inflight[username := count]; }
    }

    /** Exactly the sessions on offer: valid, not expired, of an account that is
        neither blocked nor muted for a day, and not excluded. */
    method ValidSessions(exclude: Option<string>, now: real) returns (ss: seq<Session>)
      ensures forall s :: s in ss <==> Offers(s, exclude, now)
      ensures forall s :: s in ss <==>
        && s in sessions && s.valid && s.expiry.Some? && now < s.expiry.value
        && (s.username in blocked ==> now >= blocked[s.username])
        && (s.username in muted ==> now - muted[s.username] >= 86400.0)
        && exclude != Some(s.username)
    {
      ss := [];
      for k := 0 to |sessions|
        invariant forall s :: s in ss <==> s in sessions[..k] && Selectable(s, blocked, muted, exclude, now)
      {
        if Selectable(sessions[k], blocked, muted, exclude, now) { ss := ss + [sessions[k]]; }
      }
    }

    method IndexOfUsername(username: string) returns (index: Option<nat>)
      ensures index.None? ==> forall s :: s in sessions ==> s.username != username
      ensures index.Some? ==> index.value < |sessions| && sessions[index.value].username == username
    {
      for k := 0 to |sessions|
        invariant forall j :: 0 <= j < k ==> sessions[j].username != username
      {
        if sessions[k].username == username { return Some(k); }
      }
      index := None;
    }

    /** Any session with the smallest load. */
    method LightestOf(pool: seq<Session>) returns (s: Session)
      requires pool != []
      ensures LeastLoaded(s, pool, inflight)
    {
      s := pool[0];
      for k := 1 to |pool|
        invariant s in pool
        invariant forall j :: 0 <= j < k ==> Load(inflight, s.username) <= Load(inflight, pool[j].username)
      {
        var l, m := Load(inflight, pool[k].username), Load(inflight, s.username);
        var tie: bool := *;
        if l < m || (l == m && tie) { s := pool[k]; }
      }
    }

    /** Selects a session that is valid, unexpired, unblocked, unmuted and not
        excluded, and least loaded among all of those; None only when there is
        no such session. */
    method SelectValidSession(exclude: Option<string>, now: real) returns (selected: Option<Session>)
      modifies this`currentIndex
      ensures selected.None? <==> forall s :: !Offers(s, exclude, now)
      ensures selected.Some? ==> Lightest(selected.value, exclude, now)
      ensures selected.Some? ==>
        0 <= currentIndex < |sessions| && sessions[currentIndex].username == selected.value.username
      ensures selected.None? ==> currentIndex == old(currentIndex)
    {
      hide UnderCap;
      var valid := ValidSessions(exclude, now);
      if valid == [] {
        assert forall s :: Offers(s, exclude, now) ==> s in valid;
        return None;
      }
      assert valid[0] in valid;
      var under := UnderCap(valid, inflight);
      var s := LightestOf(if under != [] then under else valid);
      CapIsLeastLoaded(valid, inflight, s);
      var index := IndexOfUsername(s.username);
      if index.Some? { currentIndex := index.value; }
      assert Offers(s, exclude, now);
      selected := Some(s);
    }

    // ---- Blocking, muting, cleaning ------------------------------------

    method BlockAccount(username: string, seconds: real, now: real)
      modifies this`blocked
      ensures blocked == old(blocked)[username := now + if seconds < 60.0 then 60.0 else seconds]
      ensures forall t :: now <= t < now + 60.0 ==> Blocked(blocked, username, t)
    {
      blocked := blocked[username := now + if seconds < 60.0 then 60.0 else seconds];
    }

    /** After sessions were removed: the index points at a session again. It goes to
        a live one if the session it meant before is gone; else it stays where it
        is, or goes to the first one if there are fewer now. */
    method FixCurrentIndex(previous: Option<string>, now: real)
      requires currentIndex >= 0
      modifies this`currentIndex
      ensures if sessions == [] then currentIndex == 0 else 0 <= currentIndex < |sessions|
      ensures
        var stays := if old(currentIndex) < |sessions| then old(currentIndex) else 0;
        var gone := previous.Some? && previous.value != ""
                    && forall s :: s in sessions ==> s.username != previous.value;
        if !gone then currentIndex == stays
        else if exists s :: s in sessions && Live(s, now) then Live(sessions[currentIndex], now)
        else currentIndex == 0
    {
      var username := previous;
      if username.None? && currentIndex < |sessions| { username := Some(sessions[currentIndex].username); }
      var gone := false;
      if username.Some? && username.value != "" {
        var index := IndexOfUsername(username.value);
        gone := index.None?;
      }
      if gone {
        if k :| 0 <= k < |sessions| && Live(sessions[k], now) { currentIndex := k; } else { currentIndex := 0; }
      } else if currentIndex >= |sessions| {
        currentIndex := 0;
      }
    }

    method SessionUsernameAtCurrent() returns (username: Option<string>)
      requires currentIndex >= 0
      ensures username.Some? <==> currentIndex < |sessions|
      ensures username.Some? ==> username.value == sessions[currentIndex].username
    {
      username := if currentIndex < |sessions| then Some(sessions[currentIndex].username) else None;
    }

    method CleanExpired(now: real)
      modifies this`sessions
      ensures sessions == Kept(old(sessions), s => Live(s, now))
      ensures old(Distinct(sessions)) ==> Distinct(sessions)
      ensures Ready(sessions, now) == old(Ready(sessions, now))
    {
      if Distinct(sessions) { KeptDistinct(sessions, s => Live(s, now)); }
      CleanKeepsReady(sessions, now);
      sessions := Kept(sessions, s => Live(s, now));
    }

    /** Expired sessions leave now; the index moves only when one did. */
    method PruneExpired(now: real)
      requires currentIndex >= 0
      modifies this`sessions, this`currentIndex
      ensures currentIndex >= 0
      ensures sessions == Kept(old(sessions), s => Live(s, now))
      ensures old(Distinct(sessions)) ==> Distinct(sessions)
      ensures Ready(sessions, now) == old(Ready(sessions, now))
      ensures forall s :: Offers(s, None, now) <==> old(Offers(s, None, now))
      ensures forall s, u: string :: Offers(s, Some(u), now) <==> old(Offers(s, Some(u), now))
      ensures forall a :: MayLogIn(a, now) <==> old(MayLogIn(a, now))
      ensures old(currentIndex < |sessions| && Live(sessions[currentIndex], now)) ==>
        currentIndex == if old(currentIndex) < |sessions| then old(currentIndex) else 0
    {
      var count := |sessions|;
      var previous := SessionUsernameAtCurrent();
      CleanExpired(now);
      assert old(currentIndex < |sessions| && Live(sessions[currentIndex], now)) ==>
          old(sessions[currentIndex]) in sessions;
      if |sessions| < count { FixCurrentIndex(previous, now); }
    }

    /** Cleans up when the last cleanup is long enough ago. */
    method EnsureCleanup(due: bool, now: real)
      requires currentIndex >= 0
      modifies this`sessions, this`currentIndex
      ensures currentIndex >= 0
      ensures sessions == if due then Kept(old(sessions), s => Live(s, now)) else old(sessions)
      ensures old(Distinct(sessions)) ==> Distinct(sessions)
      ensures Ready(sessions, now) == old(Ready(sessions, now))
    {
      if due { PruneExpired(now); }
    }

    /** A muted account has no session any more, and it may not be selected or
        logged in for a day from the moment of the mute; a mute that is older
        than that already is dropped at once. */
    method HandleAccountMuted(username: string, at: real, now: real)
      requires currentIndex >= 0
      modifies this`muted, this`sessions, this`currentIndex
      ensures forall s :: s in sessions <==> s in old(sessions) && s.username != username && Live(s, now)
      ensures old(Distinct(sessions)) ==> Distinct(sessions)
      ensures forall t :: Muted(muted, username, t) <==>
        now - at < MUTE_LOGIN_BLOCK_SECONDS && t - at < MUTE_LOGIN_BLOCK_SECONDS
      ensures forall u, t :: u != username && t >= now ==> Muted(muted, u, t) == Muted(old(muted), u, t)
      ensures forall s: Session, t: real :: s.username == username ==> !Offers(s, None, t)
      ensures currentIndex >= 0
    {
      hide Kept, Ready, Distinct;
      muted := muted[username := at];
      muted := map u | u in muted && now - muted[u] < MUTE_LOGIN_BLOCK_SECONDS :: muted[u];
      if Distinct(sessions) { KeptDistinct(sessions, (s: Session) => s.username != username); }
      sessions := Kept(sessions, (s: Session) => s.username != username);
      FixCurrentIndex(Some(username), now);
      CleanExpired(now);
    }

    // ---- Logging in -----------------------------------------------------

    /** The vendor's login. */
    method PerformLogin(account: string) returns (ps: Option<Session>)
      ensures ps.Some? ==> ps.value.username == account
    {
      var works: bool := *;
      var expiry: real := *;
      ps := if works then Some(Session(account, true, Some(expiry))) else None;
    }

    /** Cleans up if that is due, logs in, and lets the new session replace the
        account's old one. A failed login changes nothing but that sessions that
        are not live may have left. */
    method LoginAccount(account: string, now: real) returns (ps: Option<Session>)
      requires currentIndex >= 0
      modifies this`sessions, this`currentIndex, this`history
      ensures currentIndex >= 0
      ensures ps.Some? ==> ps.value.username == account
      ensures old(Distinct(sessions)) ==> Distinct(sessions)
      ensures Ready(sessions, now) <= old(Ready(sessions, now)) + if ps.Some? then 1 else 0
      ensures ps.Some? ==> (Live(ps.value, now) <==> ps.value in sessions)
      ensures forall s: Session :: s.username != account && Live(s, now) ==> (s in sessions <==> s in old(sessions))
      ensures ps.None? ==> history == old(history) && Ready(sessions, now) == old(Ready(sessions, now))
      ensures ps.None? ==> forall s :: s in sessions ==> s in old(sessions)
      ensures ps.None? ==> forall s :: s in old(sessions) && Live(s, now) ==> s in sessions
      ensures ps.Some? ==> history == old(history)[account := now]
    {
      hide Kept, ReplaceOrAppend, Ready;
      var due: bool := *;
      EnsureCleanup(due, now);
      ps := PerformLogin(account);
      if ps.None? { return; }
      if Distinct(sessions) { ReplaceDistinct(sessions, ps.value); }
      ReplaceAddsOne(sessions, ps.value, now);
      sessions := ReplaceOrAppend(sessions, ps.value);
      history := history[account := now];
      var previous := SessionUsernameAtCurrent();
      CleanExpired(now);
      FixCurrentIndex(previous, now);
    }

    /** Accounts that may be logged in: not skipped, without a live session,
        neither blocked nor muted. */
    function Eligible(skip: set<string>, now: real): set<string>
      reads this`sessions, this`blocked, this`muted
    {
      set a | a in accounts && a !in skip && !Blocked(blocked, a, now) && !Muted(muted, a, now)
              && forall s :: s in sessions && Live(s, now) ==> s.username != a
    }

    /** The account has no live session and is neither blocked nor muted. */
    ghost predicate MayLogIn(a: string, now: real)
      reads this`sessions, this`blocked, this`muted
    {
      && a in accounts
      && (a in blocked ==> now >= blocked[a])
      && (a in muted ==> now - muted[a] >= 86400.0)
      && forall s :: s in sessions && s.username == a ==> !s.valid || s.expiry.None? || s.expiry.value <= now
    }

    method PickAccountForLogin(skip: set<string>, now: real) returns (pick: Option<string>)
      ensures pick.None? <==> forall a :: MayLogIn(a, now) ==> a in skip
      ensures pick.Some? ==> MayLogIn(pick.value, now) && pick.value !in skip
      ensures pick.Some? ==> pick.value in Eligible(skip, now)
      ensures pick.Some? && pick.value in history ==> forall a :: a in Eligible(skip, now) ==> a in history
      ensures |accounts| >= STALE_PICK_POOL && pick.Some? && pick.value in history ==>
        exists names :: Stalest(accounts, history, names)
                        && (pick.value in names || NoneOf(names, Eligible(skip, now)))
    {
      assert forall a :: MayLogIn(a, now) && a !in skip <==> a in Eligible(skip, now);
      pick := PickAccount(accounts, history, Eligible(skip, now));
    }

    /** Gives up only when nothing is on offer. */
    method FallbackValidSession(exclude: Option<string>, now: real) returns (result: Option<Session>)
      modifies this`currentIndex
      ensures result.Some? ==> Lightest(result.value, exclude, now)
      ensures result.None? ==> forall s :: !Offers(s, exclude, now)
      ensures result.Some? ==>
        0 <= currentIndex < |sessions| && sessions[currentIndex].username == result.value.username
      ensures old(currentIndex) >= 0 ==> currentIndex >= 0
    {
      result := SelectValidSession(exclude, now);
    }

    /** Logs in one account after another until one works or none is left. `tried`
        are the accounts in the order they were tried. */
    method LoginUntilValid(first: string, skipped: set<string>, exclude: Option<string>, now: real)
      returns (result: Option<Session>, ghost tried: seq<string>)
      requires currentIndex >= 0 && first in Eligible(skipped, now)
      requires exclude.Some? && exclude.value != "" ==> exclude.value in skipped
      modifies this`sessions, this`currentIndex, this`history
      ensures 0 < |tried| <= |accounts| && NoRepeats(tried)
      ensures result.None? ==> forall a :: old(MayLogIn(a, now)) && a !in skipped ==> a in tried
      ensures result.Some? && result.value in sessions ==>
        0 <= currentIndex < |sessions| && sessions[currentIndex].username == result.value.username
      ensures forall a :: a in tried ==> a in accounts && a !in skipped
                                         && !Blocked(blocked, a, now) && !Muted(muted, a, now)
      ensures result.Some? ==> exclude != Some(result.value.username)
      ensures result.Some? ==> result.value.username in tried || Lightest(result.value, exclude, now)
      ensures result.None? ==> forall s :: !Offers(s, exclude, now)
      ensures currentIndex >= 0
    {
      var skip := skipped + {first};
      var account := first;
      tried := [];
      for round := 0 to |accounts|
        invariant currentIndex >= 0 && |tried| == round && NoRepeats(tried)
        invariant account in accounts && account !in skipped && account !in tried
        invariant !Blocked(blocked, account, now) && !Muted(muted, account, now)
        invariant skip == skipped + (set a | a in tried) + {account}
        invariant forall s: Session :: s.username !in tried && Live(s, now) ==> (s in sessions <==> s in old(sessions))
        invariant forall a :: a in tried ==> a in accounts && a !in skipped
                                             && !Blocked(blocked, a, now) && !Muted(muted, a, now)
      {
        tried := tried + [account];
        var ps := LoginAccount(account, now);
        if ps.Some? && exclude != Some(ps.value.username) {
          var index := IndexOfUsername(ps.value.username);
          currentIndex := if index.Some? then index.value else 0;
          return ps, tried;
        }
        var next := PickAccountForLogin(skip, now);
        if next.None? {
          assert forall a :: old(MayLogIn(a, now)) && a !in skipped && a !in tried ==> MayLogIn(a, now);
          break;
        }
        account := next.value;
        skip := skip + {account};
      }
      if |tried| == |accounts| { AllTried(tried, accounts); }
      result := FallbackValidSession(exclude, now);
    }

    /** Switches to another account: to a session on offer if there is one,
        else by logging in. Terminates after at most one login per account and
        never returns the excluded one. */
    method SwitchToNext(exclude: Option<string>, now: real)
      returns (result: Option<Session>, ghost tried: seq<string>)
      requires currentIndex >= 0
      modifies this`sessions, this`currentIndex, this`history
      ensures result.Some? ==> exclude != Some(result.value.username)
      ensures |tried| <= |accounts| && NoRepeats(tried)
      ensures forall a :: a in tried ==> a in accounts && (exclude == Some(a) ==> a == "")
                                         && !Blocked(blocked, a, now) && !Muted(muted, a, now)
      ensures result.Some? ==> result.value.username in tried || Lightest(result.value, exclude, now)
      ensures result.None? ==> forall s :: !Offers(s, exclude, now)
      ensures old(exists s :: Offers(s, exclude, now)) ==> tried == [] && result.Some?
      ensures result.Some? && result.value in sessions ==>
        0 <= currentIndex < |sessions| && sessions[currentIndex].username == result.value.username
      ensures result.None? ==>
        forall a :: old(MayLogIn(a, now)) && (exclude == Some(a) ==> a == "") ==> a in tried
      ensures old(forall s :: !Offers(s, exclude, now)) ==>
        (tried == [] <==> old(forall a :: MayLogIn(a, now) ==> exclude == Some(a) && a != ""))
      ensures currentIndex >= 0
    {
      hide Kept, Distinct, Eligible;
      tried := [];
      ghost var asked := exists s :: Offers(s, exclude, now);
      ghost var some := if asked then var s :| Offers(s, exclude, now); s else Session("", false, None);
      var skip := if exclude.Some? && exclude.value != "" then {exclude.value} else {};
      PruneExpired(now);
      assert asked ==> Offers(some, exclude, now);
      result := SelectValidSession(exclude, now);
      assert result.None? ==> !Offers(some, exclude, now);
      if result.Some? { return; }
      var account := PickAccountForLogin(skip, now);
      if account.None? {
        assert forall a :: old(MayLogIn(a, now)) ==> a in skip;
        result := FallbackValidSession(exclude, now);
        return;
      }
      result, tried := LoginUntilValid(account.value, skip, exclude, now);
    }

    /** A session for one request, from the pool if it has one to offer. */
    method GetValidSession(exclude: Option<string>, now: real)
      returns (result: Option<Session>, ghost tried: seq<string>)
      requires currentIndex >= 0
      modifies this`sessions, this`currentIndex, this`history
      ensures result.Some? ==> exclude != Some(result.value.username)
      ensures result.Some? ==> result.value.username in tried || Lightest(result.value, exclude, now)
      ensures result.None? ==> forall s :: !Offers(s, exclude, now)
      ensures |tried| <= |accounts| && NoRepeats(tried)
      ensures old(exists s :: Offers(s, exclude, now)) ==> result.Some? && tried == []
      ensures result.None? ==>
        forall a :: old(MayLogIn(a, now)) && (exclude == Some(a) ==> a == "") ==> a in tried
      ensures old(forall s :: !Offers(s, exclude, now)) ==>
        (tried == [] <==> old(forall a :: MayLogIn(a, now) ==> exclude == Some(a) && a != ""))
      ensures old(exists s :: Offers(s, exclude, now)) ==>
        forall s :: Offers(s, None, now) <==> old(Offers(s, None, now))
      ensures currentIndex >= 0
    {
      hide Kept, Distinct;
      tried := [];
      ghost var asked := exists s :: Offers(s, exclude, now);
      ghost var some := if asked then var s :| Offers(s, exclude, now); s else Session("", false, None);
      PruneExpired(now);
      assert old(Offers(some, None, now)) ==> Offers(some, None, now);
      result := SelectValidSession(exclude, now);
      assert result.None? ==> !Offers(some, exclude, now);
      if result.Some? { return; }
      assert forall a :: MayLogIn(a, now) <==> old(MayLogIn(a, now));
      result, tried := SwitchToNext(exclude, now);
    }

    /** A lease goes to an account on offer that carried least, or to one logged
        in for it; it raises an account from the pool above the soft cap only
        when every account on offer has reached it. */
    method LeaseValidSession(exclude: Option<string>, now: real)
      returns (leased: Option<Session>, ghost tried: seq<string>)
      requires currentIndex >= 0
      modifies this`sessions, this`currentIndex, this`history, this`inflight
      ensures leased.None? ==> inflight == old(inflight)
      ensures leased.None? ==>
        forall a :: old(MayLogIn(a, now)) && (exclude == Some(a) ==> a == "") ==> a in tried
      ensures old(forall s :: !Offers(s, exclude, now)) ==>
        (tried == [] <==> old(forall a :: MayLogIn(a, now) ==> exclude == Some(a) && a != ""))
      ensures leased.Some? ==> inflight == Bump(old(inflight), leased.value.username, 1)
      ensures leased.Some? ==> exclude != Some(leased.value.username)
      ensures leased.Some? && leased.value.username !in tried ==>
        Offers(leased.value, exclude, now)
        && forall s :: Offers(s, exclude, now) ==>
             Load(old(inflight), leased.value.username) <= Load(old(inflight), s.username)
      ensures old(exists s :: Offers(s, exclude, now)) ==>
        leased.Some? && tried == [] && forall s :: Offers(s, None, now) <==> old(Offers(s, None, now))
      ensures currentIndex >= 0
      ensures leased.Some? && leased.value.username !in tried
              && Load(inflight, leased.value.username) > MAX_INFLIGHT_PER_ACCOUNT ==>
        forall s :: Offers(s, exclude, now) ==> Load(old(inflight), s.username) >= MAX_INFLIGHT_PER_ACCOUNT
    {
      leased, tried := GetValidSession(exclude, now);
      if leased.Some? { BumpInflight(leased.value.username, 1); }
    }

    method ReleaseSession(leased: Session)
      modifies this`inflight
      ensures inflight == Bump(old(inflight), leased.username, -1)
    {
      BumpInflight(leased.username, -1);
    }

    /** `users` are exactly the accounts with a session on offer. */
    ghost predicate OnOffer(users: seq<string>, now: real)
      reads this`sessions, this`blocked, this`muted
    {
      && (forall s :: Offers(s, None, now) ==> s.username in users)
      && forall u :: u in users ==> exists s :: Offers(s, None, now) && s.username == u
    }

    /** Any number of requests take a lease before one gives its lease back:
        each goes to a least loaded account, the pool stays balanced, and an
        idle pool with room for all of them exceeds no cap. */
    method LeaseMany(ghost users: seq<string>, count: nat, now: real) returns (picks: seq<string>)
      requires currentIndex >= 0 && users != [] && Names(users) && OnOffer(users, now)
      modifies this`sessions, this`currentIndex, this`history, this`inflight
      ensures |picks| == count && LeastPicks(users, old(inflight), picks)
      ensures inflight == After(old(inflight), picks)
      ensures old(Balanced(users, inflight)) ==> Balanced(users, inflight)
      ensures old(inflight) == map[] && count <= MAX_INFLIGHT_PER_ACCOUNT * |users| ==>
        forall u :: u in users ==> Load(inflight, u) <= MAX_INFLIGHT_PER_ACCOUNT
    {
      hide Load, Bump, Names, Balanced;
      picks := [];
      for k := 0 to count
        invariant currentIndex >= 0 && OnOffer(users, now) && |picks| == k
        invariant LeastPicks(users, old(inflight), picks) && inflight == After(old(inflight), picks)
      {
        label L:
        assert users[0] in users;
        ghost var first :| Offers(first, None, now) && first.username == users[0];
        var leased, _ := LeaseValidSession(None, now);
        var u := leased.value.username;
        assert forall s :: Offers(s, None, now) <==> old@L(Offers(s, None, now));
        assert forall v :: v in users ==> Load(old@L(inflight), u) <= Load(old@L(inflight), v);
        PickAfter(users, old(inflight), picks, u);
        picks := picks + [u];
      }
      if old(Balanced(users, inflight)) { PicksStayBalanced(users, old(inflight), picks); }
      if old(inflight) == map[] && count <= MAX_INFLIGHT_PER_ACCOUNT * |users| {
        forall u | u in users ensures Load(inflight, u) <= MAX_INFLIGHT_PER_ACCOUNT {
          CapHoldsWhileThereIsRoom(users, picks, u);
        }
      }
    }

    // ---- Refilling ------------------------------------------------------

    /** Logs in accounts until the target is met or nobody is left: the pool
        never grows beyond the target, or stays as large as it was. */
    method Replenish(count: Option<int>, configured: int, concurrent: int, demand: int, signalled: bool, now: real)
      returns (ghost picked: seq<string>)
      requires currentIndex >= 0
      modifies this`sessions, this`currentIndex, this`history
      ensures old(Distinct(sessions)) ==> Distinct(sessions)
      ensures Ready(sessions, now)
              <= Max(old(Ready(sessions, now)), Target(count, configured, concurrent, demand, signalled))
      ensures forall a :: a in picked ==> a in accounts && !Blocked(blocked, a, now) && !Muted(muted, a, now)
      ensures forall a, s :: a in picked && s in old(sessions) && Live(s, now) ==> s.username != a
      ensures |picked| <= Max(0, Target(count, configured, concurrent, demand, signalled) - old(Ready(sessions, now)))
      ensures |picked| < Target(count, configured, concurrent, demand, signalled) - old(Ready(sessions, now)) ==>
        forall a :: !MayLogIn(a, now)
    {
      picked := [];
      hide Kept, Distinct, Ready, Target;
      if accounts == [] { return; }
      var target := Target(count, configured, concurrent, demand, signalled);
      var due: bool := *;
      EnsureCleanup(due, now);
      var ready := Ready(sessions, now);
      var need := Max(0, target - ready);
      for attempt := 0 to need
        invariant currentIndex >= 0 && (old(Distinct(sessions)) ==> Distinct(sessions))
        invariant Ready(sessions, now) <= ready + attempt && |picked| == attempt
        invariant forall s :: s in old(sessions) && Live(s, now) ==> s in sessions
        invariant forall a, s :: a in picked && s in old(sessions) && Live(s, now) ==> s.username != a
        invariant forall a :: a in picked ==> a in accounts && !Blocked(blocked, a, now) && !Muted(muted, a, now)
      {
        var account := PickAccountForLogin({}, now);
        if account.None? { return; }
        picked := picked + [account.value];
        var _ := LoginAccount(account.value, now);
      }
    }
  }

  /** As many different accounts as there are entries are all of them. */
  lemma AllTried(tried: seq<string>, accounts: seq<string>)
    requires NoRepeats(tried) && |tried| == |accounts| && forall a :: a in tried ==> a in accounts
    ensures forall a :: a in accounts ==> a in tried
  {
    Members(tried);
    AtMost(accounts);
    var t, all := set a | a in tried, set a | a in accounts;
    assert t <= all;
    if t != all {
      assert t < all;
      Smaller(t, all);
    }
    assert forall a :: a in accounts ==> a in all;
  }

  lemma Smaller(t: set<string>, all: set<string>)
    requires t < all
    ensures |t| < |all|
  {
    assert all == t + (all - t) && all - t != {};
  }

  lemma {:induction false} Members(s: seq<string>)
    requires NoRepeats(s)
    ensures |set a | a in s| == |s|
  {
    if s != [] {
      Members(s[1..]);
      assert (set a | a in s) == (set a | a in s[1..]) + {s[0]};
    }
  }

  lemma {:induction false} AtMost(s: seq<string>)
    ensures |set a | a in s| <= |s|
  {
    if s != [] {
      AtMost(s[1..]);
      assert (set a | a in s) == (set a | a in s[1..]) + {s[0]};
    }
  }

  predicate NoRepeats(s: seq<string>) { forall i, j :: 0 <= i < j < |s| ==> s[i] != s[j] }

  lemma {:induction false} CleanKeepsReady(ss: seq<Session>, now: real)
    ensures Ready(Kept(ss, s => Live(s, now)), now) == Ready(ss, now)
  {
    if ss != [] {
      CleanKeepsReady(ss[1..], now);
      var keep := (s: Session) => Live(s, now);
      if Live(ss[0], now) {
        assert Kept(ss, keep) == [ss[0]] + Kept(ss[1..], keep);
        assert Kept(ss, keep)[1..] == Kept(ss[1..], keep);
      } else {
        assert Kept(ss, keep) == Kept(ss[1..], keep);
      }
    }
  }
}
