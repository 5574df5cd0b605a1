/**
 The lease on a subreddit (lock.py): SET NX EX to acquire, and the two compare-and-act scripts
 that refresh and release it. A key whose expiry time has come reads as absent.
 */
module LockManager {
  import opened Common

  /** instance_id:uuid4 - the nonce makes every acquisition's token new. */
  datatype Token = Token(instance: string, nonce: nat)

  datatype Lease = Lease(token: Token, expiresAt: nat)

  type Key = Option<Lease>

  predicate Holds(k: Key, now: nat, t: Token) {
    k.Some? && k.value.token == t && now < k.value.expiresAt
  }

  predicate Exists(k: Key, now: nat) {
    k.Some? && now < k.value.expiresAt
  }

  function SetIfAbsent(k: Key, now: nat, t: Token, ttl: nat): Key {
    if Exists(k, now) then k else Some(Lease(t, now + ttl))
  }

  function ExpireIfOwner(k: Key, now: nat, t: Token, ttl: nat): Key {
    if Holds(k, now, t) then Some(Lease(t, now + ttl)) else k
  }

  function DeleteIfOwner(k: Key, now: nat, t: Token): Key {
    if Holds(k, now, t) then None else k
  }

  /** The shared Redis keys; every method is one command or one atomic script. */
  class LeaseStore {
    var keys: map<string, Lease>
    var now: nat

    function KeyOf(subreddit: string): Key
      reads this
    {
      if subreddit in keys then Some(keys[subreddit]) else None
    }

    /** `lookup` is the fate of the GET that a contended acquire sends to log the holder. */
    method AcquireLock(subreddit: string, token: Token, ttl: nat, wire: Wire, lookup: Wire)
      returns (r: Reply<Option<Token>>)
      modifies `keys
      ensures KeyOf(subreddit) == if wire.RequestLost? then old(KeyOf(subreddit))
                                  else SetIfAbsent(old(KeyOf(subreddit)), now, token, ttl)
      // A free key becomes the token's for ttl, a lease that is still running stays as it is.
      ensures KeyOf(subreddit) == if wire.RequestLost? || (subreddit in old(keys) && now < old(keys)[subreddit].expiresAt)
                                  then old(KeyOf(subreddit)) else Some(Lease(token, now + ttl))
      ensures forall s :: s != subreddit ==> KeyOf(s) == old(KeyOf(s))
      ensures r == if !wire.Answered? then Raised
                   else if !old(Exists(KeyOf(subreddit), now)) then Reply(Some(token))
                   else if lookup.Answered? then Reply(None) else Raised
    {
      if wire == RequestLost {
        return Raised;
      }
      var acquired := !(subreddit in keys && now < keys[subreddit].expiresAt);
      if acquired {
        keys := keys[subreddit := Lease(token, now + ttl)];
      }
      if wire == ReplyLost {
        return Raised;
      }
      if acquired {
        return Reply(Some(token));
      }
      r := if lookup == Answered then Reply(None) else Raised;
    }

    method RefreshLock(subreddit: string, token: Token, ttl: nat, wire: Wire) returns (r: Reply<bool>)
      modifies `keys
      ensures KeyOf(subreddit) == if wire.RequestLost? then old(KeyOf(subreddit))
                                  else ExpireIfOwner(old(KeyOf(subreddit)), now, token, ttl)
      // The live owner gets ttl from now on, nobody else changes anything.
      ensures KeyOf(subreddit) == if wire.RequestLost? || !old(Holds(KeyOf(subreddit), now, token))
                                  then old(KeyOf(subreddit)) else Some(Lease(token, now + ttl))
      ensures forall s :: s != subreddit ==> KeyOf(s) == old(KeyOf(s))
      ensures r == if wire.Answered? then Reply(old(Holds(KeyOf(subreddit), now, token))) else Raised
    {
      if wire == RequestLost {
        return Raised;
      }
      var owner := subreddit in keys && now < keys[subreddit].expiresAt && keys[subreddit].token == token;
      if owner {
        keys := keys[subreddit := Lease(token, now + ttl)];
      }
      r := if wire == ReplyLost then Raised else Reply(owner);
    }

    method OwnsLock(subreddit: string, token: Token, wire: Wire) returns (r: Reply<bool>)
      ensures r == if wire.Answered? then Reply(Holds(KeyOf(subreddit), now, token)) else Raised
    {
      r := if wire != Answered then Raised
           else Reply(subreddit in keys && now < keys[subreddit].expiresAt && keys[subreddit].token == token);
    }

    method ReleaseLock(subreddit: string, token: Token, wire: Wire) returns (r: Reply<bool>)
      modifies `keys
      ensures KeyOf(subreddit) == if wire.RequestLost? then old(KeyOf(subreddit))
                                  else DeleteIfOwner(old(KeyOf(subreddit)), now, token)
      // The live owner's release frees the key, anybody else's changes nothing.
      ensures if !wire.RequestLost? && old(Holds(KeyOf(subreddit), now, token)) then !Exists(KeyOf(subreddit), now)
              else KeyOf(subreddit) == old(KeyOf(subreddit))
      ensures forall s :: s != subreddit ==> KeyOf(s) == old(KeyOf(s))
      ensures r == if wire.Answered? then Reply(old(Holds(KeyOf(subreddit), now, token))) else Raised
    {
      if wire == RequestLost {
        return Raised;
      }
      var owner := subreddit in keys && now < keys[subreddit].expiresAt && keys[subreddit].token == token;
      if owner {
        keys := keys - {subreddit};
      }
      r := if wire == ReplyLost then Raised else Reply(owner);
    }
  }

  /** Who holds the lease: a live key has one holder. */
  lemma OneHolder(k: Key, now: nat, t: Token, u: Token)
    ensures Holds(k, now, t) && Holds(k, now, u) ==> t == u
    ensures Exists(k, now) <==> exists v :: Holds(k, now, v)
  {
    if Exists(k, now) {
      assert Holds(k, now, k.value.token);
    }
  }

  /** After its owner's release, whoever acquires next has the lease at once. */
  lemma ReleaseHandsOver(k: Key, now: nat, t: Token, u: Token, ttl: nat)
    requires Holds(k, now, t) && ttl > 0
    ensures !Exists(DeleteIfOwner(k, now, t), now)
    ensures Holds(SetIfAbsent(DeleteIfOwner(k, now, t), now, u, ttl), now, u)
    ensures u != t ==> DeleteIfOwner(k, now, u) == k && SetIfAbsent(k, now, u, ttl) == k
  {
  }

  /** A refresh by the owner lasts exactly until its TTL is over, whatever the lease had left. */
  lemma RefreshLasts(k: Key, now: nat, t: Token, ttl: nat, later: nat)
    requires Holds(k, now, t) && now <= later
    ensures Holds(ExpireIfOwner(k, now, t, ttl), later, t) <==> later < now + ttl
  {
  }

  // ---------------------------------------------------------------------------------------------
  // Histories of one key

  /** Commands as the server executes them, whoever sent them, with time passing in between. */
  datatype Command =
    | Wait(duration: nat)
    | Acquire(token: Token, ttl: nat)
    | Refresh(token: Token, ttl: nat)
    | Release(token: Token)

  datatype Clocked = Clocked(key: Key, now: nat)

  function Execute(s: Clocked, c: Command): Clocked {
    match c
    case Wait(d) => s.(now := s.now + d)
    case Acquire(t, ttl) => s.(key := SetIfAbsent(s.key, s.now, t, ttl))
    case Refresh(t, ttl) => s.(key := ExpireIfOwner(s.key, s.now, t, ttl))
    case Release(t) => s.(key := DeleteIfOwner(s.key, s.now, t))
  }

  function After(h: seq<Command>): Clocked {
    if h == [] then Clocked(None, 0) else Execute(After(h[..|h| - 1]), h[|h| - 1])
  }

  ghost predicate FreshTokens(h: seq<Command>) {
    forall i, j :: 0 <= i < j < |h| && h[i].Acquire? && h[j].Acquire? ==> h[i].token != h[j].token
  }

  ghost predicate HeldAfter(h: seq<Command>, i: nat, t: Token)
    requires i <= |h|
  {
    var s := After(h[..i]);
    Holds(s.key, s.now, t)
  }

  /**
   Who holds the key after one more command: time may run out, an acquire takes a free key, the
   owner's refresh lasts its TTL, the owner's release ends it, and nothing else changes the holder.
   */
  lemma HeldAfterStep(h: seq<Command>, c: Command, t: Token)
    ensures var s, s' := After(h), After(h + [c]);
      var held := Holds(s.key, s.now, t);
      Holds(s'.key, s'.now, t) <==>
        match c
        case Wait(d) => held && s.now + d < s.key.value.expiresAt
        case Acquire(u, ttl) => if exists v :: Holds(s.key, s.now, v) then held else u == t && ttl > 0
        case Refresh(u, ttl) => held && (u == t ==> ttl > 0)
        case Release(u) => held && u != t
  {
    var s := After(h);
    assert (h + [c])[..|h|] == h && After(h + [c]) == Execute(s, c);
    OneHolder(s.key, s.now, t, t);
    if c.Acquire? {
      assert Exists(s.key, s.now) <==> exists v :: Holds(s.key, s.now, v);
    }
  }

  /**
   Once a token that was sent with an acquire does not hold the key (it lost the race, was
   released, or expired), nothing anybody does makes it the stored live token again.
   */
  lemma {:induction false} LostStaysLost(h: seq<Command>, a: nat, i: nat, j: nat)
    requires FreshTokens(h) && a < i <= j <= |h| && h[a].Acquire?
    requires !HeldAfter(h, i, h[a].token)
    ensures !HeldAfter(h, j, h[a].token)
    decreases j - i
  {
    if i < j {
      LostStaysLost(h, a, i, j - 1);
      assert h[..j][..j - 1] == h[..j - 1];
    }
  }

  /** A refresh or release with a lost token leaves the key and its expiry time as they are. */
  lemma LostTokenIsPowerless(h: seq<Command>, a: nat, i: nat, j: nat)
    requires FreshTokens(h) && a < i <= j < |h| && h[a].Acquire?
    requires !HeldAfter(h, i, h[a].token)
    requires (h[j].Refresh? || h[j].Release?) && h[j].token == h[a].token
    ensures After(h[..j + 1]) == After(h[..j])
  {
    LostStaysLost(h, a, i, j);
    assert h[..j + 1][..j] == h[..j];
  }
}
