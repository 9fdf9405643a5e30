/** Renewing a browser session: one-use refresh tokens on the server (core/security.py) and the
    lock, probe, refresh and single retry that all tabs of a browser share (lib/api.ts). */
module SessionRenewal {
  import opened Base

  /** Tokens are numbered in the order they are issued, so a new one was never seen before. */
  type Token = nat

  datatype RefreshSession = RefreshSession(user: Id, expiresAt: int, revokedAt: Option<int>)

  // ---------------------------------------------------------------- server

  /** The stored sessions by the token whose digest they keep, and the next token. */
  datatype Store = Store(rows: map<Token, RefreshSession>, next: Token, lifetime: nat)

  predicate Usable(store: Store, t: Token, at: int) {
    t in store.rows && store.rows[t].revokedAt.None? && store.rows[t].expiresAt > at
  }

  predicate Revoked(store: Store, t: Token) { t in store.rows && store.rows[t].revokedAt.Some? }

  ghost predicate StoreSound(store: Store) { forall t :: t in store.rows ==> t < store.next }

  function Issued(store: Store, user: Id, at: int): Store {
    store.(rows := store.rows[store.next := RefreshSession(user, at + store.lifetime, None)], next := store.next + 1)
  }

  function Revoking(store: Store, t: Token, at: int): Store {
    if t in store.rows && store.rows[t].revokedAt.None?
    then store.(rows := store.rows[t := store.rows[t].(revokedAt := Some(at))])
    else store
  }

  /** rotate_refresh: the sessions after it and the replacement, if there is one. */
  function Rotated(store: Store, t: Token, at: int): (Store, Option<Token>) {
    if Usable(store, t, at) then (Issued(Revoking(store, t, at), store.rows[t].user, at), Some(store.next))
      else (store, None)
  }

  /** A token is replaced at most once: rotating it revokes it, and what is revoked or unknown
      is never replaced, at no later time and after no other operation on the sessions. */
  lemma RotatedOnce(store: Store, t: Token, at: int, later: Store, afterwards: int)
    requires StoreSound(store) && Rotated(store, t, at).1.Some?
    requires forall x :: Revoked(Rotated(store, t, at).0, x) ==> Revoked(later, x)
    ensures StoreSound(Rotated(store, t, at).0) && Rotated(store, t, at).1 == Some(store.next)
    ensures store.next !in store.rows
    ensures Rotated(store, t, at).0.rows[store.next].user == store.rows[t].user
    ensures Usable(Rotated(store, t, at).0, store.next, at) == (store.lifetime > 0)
    ensures Rotated(later, t, afterwards).1.None? && Rotated(later, t, afterwards).0 == later
  {
    assert Revoked(Rotated(store, t, at).0, t);
  }

  /** A token is replaced exactly while it is stored, was never revoked and has not expired; then it
      is stored as revoked at that moment, the new one lives for a whole lifetime, and every
      other session is as before. */
  lemma RotatesExactly(store: Store, t: Token, at: int)
    requires StoreSound(store)
    ensures Rotated(store, t, at).1.Some? <==>
            t in store.rows && store.rows[t].revokedAt == None && at < store.rows[t].expiresAt
    ensures Rotated(store, t, at).1.Some? ==>
              var (after, user) := (Rotated(store, t, at).0, store.rows[t].user);
              && after.rows == store.rows[t := RefreshSession(user, store.rows[t].expiresAt, Some(at))]
                                         [store.next := RefreshSession(user, at + store.lifetime, None)]
              && after.next > store.next && after.lifetime == store.lifetime
    ensures Rotated(store, t, at).1.None? ==> Rotated(store, t, at).0 == store
  {
  }

  /** Signing out revokes the presented token, if it is stored and unrevoked, and nothing else. */
  lemma RevokesExactly(store: Store, t: Token, at: int)
    ensures var after := Revoking(store, t, at);
            && after.next == store.next && after.lifetime == store.lifetime
            && (forall x :: x in after.rows <==> x in store.rows)
            && (forall x :: x in store.rows ==>
                  after.rows[x] == if x == t && store.rows[x].revokedAt == None
                                   then RefreshSession(store.rows[x].user, store.rows[x].expiresAt, Some(at))
                                   else store.rows[x])
  {
  }

  class RefreshSessions {
    var store: Store

    constructor (lifetime: nat)
      ensures StoreSound(store) && store == Store(map[], 0, lifetime)
    {
      store := Store(map[], 0, lifetime);
    }

    method IssueRefresh(user: Id, at: int) returns (token: Token)
      requires StoreSound(store)
      modifies this
      ensures StoreSound(store) && token !in old(store).rows && store == Issued(old(store), user, at)
      ensures token in store.rows && store.rows[token].user == user
    {
      token := store.next;
      var row := RefreshSession(user, at + store.lifetime, None);
      store := store.(rows := store.rows[token := row], next := token + 1);
    }

    method RevokeRefresh(token: Token, at: int) returns (revoked: bool)
      requires StoreSound(store)
      modifies this
      ensures StoreSound(store) && store == Revoking(old(store), token, at)
      ensures revoked <==> store != old(store)
    {
      if token !in store.rows || store.rows[token].revokedAt.Some? {
        return false;
      }
      var row := store.rows[token];
      store := store.(rows := store.rows[token := row.(revokedAt := Some(at))]);
      assert store.rows[token] != row;
      revoked := true;
    }

    method RotateRefresh(token: Token, at: int) returns (replacement: Option<Token>)
      requires StoreSound(store)
      modifies this
      ensures StoreSound(store) && (store, replacement) == Rotated(old(store), token, at)
    {
      if token !in store.rows || store.rows[token].revokedAt.Some? || store.rows[token].expiresAt <= at {
        return None;
      }
      var user := store.rows[token].user;
      var revoked := RevokeRefresh(token, at);
      var renewed := IssueRefresh(user, at);
      replacement := Some(renewed);
    }
  }

  // ---------------------------------------------------------------- browser and server together

  datatype Phase = Probing | Renewing | Retrying

  /** The tab inside the session lock. */
  datatype Holder = Holder(tab: nat, phase: Phase)

  /** One browser and the server's sessions: what its cookies hold, whether its access token is
      still accepted, and refresh calls whose tab is gone. The last four fields only count. */
  datatype Browser = Browser(
    store: Store, accessLive: bool, refresh: Option<Token>, holder: Option<Holder>, strays: set<Token>,
    expiries: nat, rotations: nat, lostAnswers: nat, replays: nat)

  datatype Step =
    | Expire
    | Acquire(tab: nat)
    | Probe
    | Renew(at: int, answerArrives: bool, userActive: bool)
    | Retry
    | Crash
    | Late(token: Token, at: int)
    | SignIn(user: Id, at: int)
    | SignOut(at: int)
    | OtherBrowser(user: Id, at: int)

  function SignedIn(user: Id, lifetime: nat): Browser {
    Browser(Issued(Store(map[], 0, lifetime), user, 0), true, Some(0), None, {}, 0, 0, 0, 0)
  }

  /** The refresh call presents the cookie's token. A revoked one is a replay; an expired one or
      an inactive user renews nothing; otherwise the token is rotated, and the new cookies are
      stored if the answer arrives. */
  function AfterRenew(b: Browser, at: int, answerArrives: bool, userActive: bool): Browser
    requires b.holder.Some?
  {
    var done := b.(holder := None);
    if b.refresh.None? then done
    else
      var (store, replacement) := Rotated(b.store, b.refresh.value, at);
      if replacement.None? then (if Revoked(b.store, b.refresh.value) then done.(replays := b.replays + 1) else done)
      else if !userActive then done
      else
        var rotated := b.(store := store, rotations := b.rotations + 1);
        if answerArrives
        then rotated.(accessLive := true, refresh := replacement, holder := Some(b.holder.value.(phase := Retrying)))
        else rotated.(holder := None, lostAnswers := b.lostAnswers + 1)
  }

  /** A refresh call reaches the server after its tab is gone; nobody stores the new cookies. */
  function AfterLate(b: Browser, t: Token, at: int): Browser {
    var late := b.(strays := b.strays - {t});
    var (store, replacement) := Rotated(b.store, t, at);
    if replacement.Some? then late.(store := store, rotations := b.rotations + 1)
    else if Revoked(b.store, t) then late.(replays := b.replays + 1)
    else late
  }

  predicate In(b: Browser, phase: Phase) { b.holder.Some? && b.holder.value.phase == phase }

  function Next(b: Browser, step: Step): Browser {
    match step
    case Expire => if b.accessLive then b.(accessLive := false, expiries := b.expiries + 1) else b
    case Acquire(tab) => if b.holder.None? then b.(holder := Some(Holder(tab, Probing))) else b
    case Probe =>
      if In(b, Probing) then b.(holder := Some(b.holder.value.(phase := if b.accessLive then Retrying else Renewing)))
        else b
    case Renew(at, answerArrives, userActive) => if In(b, Renewing) then AfterRenew(b, at, answerArrives, userActive)
      else b
    case Retry => if In(b, Retrying) then b.(holder := None) else b
    case Crash =>
      if In(b, Renewing) && b.refresh.Some?
      then b.(holder := None, strays := b.strays + {b.refresh.value}, lostAnswers := b.lostAnswers + 1)
      else b.(holder := None)
    case Late(t, at) => if t in b.strays then AfterLate(b, t, at) else b
    case SignIn(user, at) =>
      if b.holder.None? && b.refresh.None?
      then b.(accessLive := true, refresh := Some(b.store.next), store := Issued(b.store, user, at))
      else b
    case SignOut(at) =>
      if b.holder.None? && b.refresh.Some?
      then b.(accessLive := false, refresh := None, store := Revoking(b.store, b.refresh.value, at),
              expiries := if b.accessLive then b.expiries + 1 else b.expiries)
      else b
    case OtherBrowser(user, at) => b.(store := Issued(b.store, user, at))
  }

  function Run(b: Browser, steps: seq<Step>): Browser {
    if steps == [] then b else Next(Run(b, steps[..|steps| - 1]), steps[|steps| - 1])
  }

  /** What a step presents to the server as a refresh token. */
  function Presented(b: Browser, step: Step): Option<Token> {
    match step
    case Renew(_, _, _) => if In(b, Renewing) then b.refresh else None
    case Late(t, _) => if t in b.strays then Some(t) else None
    case _ => None
  }

  /** The counters count: losses of access, presented tokens that lead to a new one, presented tokens
      that were already revoked, and presented tokens whose answer is not stored. */
  lemma CountsExactly(b: Browser, step: Step)
    requires StoreSound(b.store)
    ensures var after, shown := Next(b, step), Presented(b, step);
            && after.expiries == b.expiries + (if b.accessLive && !after.accessLive then 1 else 0)
            && after.rotations == b.rotations + (if shown.Some? && after.store != b.store then 1 else 0)
            && after.replays == b.replays + (if shown.Some? && Revoked(b.store, shown.value) then 1 else 0)
            && (step.Renew? ==>
                  after.lostAnswers == b.lostAnswers
                                       + if after.rotations > b.rotations && after.refresh == b.refresh then 1 else 0)
            && (step.Crash? ==>
                  after.lostAnswers == b.lostAnswers + if In(b, Renewing) && b.refresh.Some? then 1 else 0)
            && (!step.Renew? && !step.Crash? ==> after.lostAnswers == b.lostAnswers)
  {
  }

  lemma StartsAtZero(user: Id, lifetime: nat)
    ensures var b := SignedIn(user, lifetime);
            && b.expiries == b.rotations == b.lostAnswers == b.replays == 0 && b.accessLive
            && b.refresh.Some? && b.store.rows == map[b.refresh.value := RefreshSession(user, lifetime, None)]
            && StoreSound(b.store)
  {
  }

  /** The rotation that a lost access still has to its credit. */
  function Owed(b: Browser): nat {
    if !b.accessLive && b.refresh.Some? && !Revoked(b.store, b.refresh.value) then 1 else 0
  }

  /** While no answer was lost the cookie's token is unrevoked; a tab that renews found the
      access token dead and nobody renewed it since; each rotation answers its own loss of access. */
  ghost predicate Inv(b: Browser) {
    && StoreSound(b.store)
    && (b.refresh.Some? ==> b.refresh.value in b.store.rows)
    && (In(b, Renewing) ==> !b.accessLive)
    && (b.lostAnswers == 0 && b.refresh.Some? ==> !Revoked(b.store, b.refresh.value))
    && (b.lostAnswers == 0 ==> b.replays == 0 && b.strays == {})
    && (forall t :: t in b.strays ==> Revoked(b.store, t) || (b.refresh == Some(t) && !b.accessLive))
    && b.rotations + Owed(b) <= b.expiries
  }

  lemma NextKeeps(b: Browser, step: Step)
    requires Inv(b)
    ensures Inv(Next(b, step))
  {
  }

  lemma {:induction false} RunKeeps(b: Browser, steps: seq<Step>)
    requires Inv(b)
    ensures Inv(Run(b, steps))
  {
    hide Inv, Next;
    if steps != [] {
      RunKeeps(b, steps[..|steps| - 1]);
      NextKeeps(Run(b, steps[..|steps| - 1]), steps[|steps| - 1]);
    }
  }

  /** However many tabs meet an expired access token at once, tokens are rotated no more often
      than access was lost, and a rotated token is presented again only if an answer was lost. */
  lemma RenewalIsSingle(user: Id, lifetime: nat, steps: seq<Step>)
    ensures var b := Run(SignedIn(user, lifetime), steps);
            && b.rotations <= b.expiries
            && (b.replays > 0 ==> b.lostAnswers > 0)
  {
    RunKeeps(SignedIn(user, lifetime), steps);
  }
}
