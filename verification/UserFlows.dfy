/** Funding and recovery of ephemeral users, in a run in which any call may fail at any point. */
module UserFlows {
  import opened Wrappers
  import opened MintPairs

  type Key = int

  // ---------------------------------------------------------------- what there is to lose

  datatype TokenAccount = TokenAccount(amount: nat, rent: nat)

  datatype Holding = Holding(lamports: nat, tokens: map<Mint, TokenAccount>)

  const NOTHING := Holding(0, map[])

  /** A recovery file is created first and written second. */
  datatype RecoveryFile = Partial | Complete

  /** `unsettled` are the users with a transaction whose fate is unknown: it may still land. */
  datatype World = World(holdings: map<Key, Holding>, files: map<Key, RecoveryFile>, unsettled: set<Key>)

  function Held(w: World, k: Key): Holding { if k in w.holdings then w.holdings[k] else NOTHING }

  /** Without the accounts of some mints. */
  function Without(h: Holding, mints: set<Mint>): Holding { h.(tokens := h.tokens - mints) }

  function SetHeld(w: World, k: Key, h: Holding): World { w.(holdings := w.holdings[k := h]) }

  /** An ephemeral user and the two mints of its pool. */
  datatype Job = Job(user: Key, mintA: Mint, mintB: Mint)

  predicate MayHold(w: World, j: Job) {
    || j.user in w.unsettled
    || Held(w, j.user).lamports > 0
    || j.mintA in Held(w, j.user).tokens
    || j.mintB in Held(w, j.user).tokens
  }

  predicate OnDisk(w: World, k: Key) { k in w.files && w.files[k] == Complete }

  /** Whoever may hold something can be recovered from disk. */
  predicate Safe(w: World, jobs: seq<Job>) {
    forall i :: 0 <= i < |jobs| && MayHold(w, jobs[i]) ==> OnDisk(w, jobs[i].user)
  }

  predicate DistinctUsers(jobs: seq<Job>) {
    forall i, j :: 0 <= i < j < |jobs| ==> jobs[i].user != jobs[j].user
  }

  /** From `w` to `v` only the faucet, the users in `us` and users already unsettled have moved, only
      users in `us` have become unsettled, and no file has changed. */
  predicate Confined(w: World, v: World, faucet: Key, us: set<Key>) {
    && v.files == w.files
    && w.unsettled <= v.unsettled <= w.unsettled + us
    && forall k :: k in v.holdings.Keys + w.holdings.Keys && k != faucet && k !in us + w.unsettled ==>
         Held(v, k) == Held(w, k)
  }

  lemma HeldOutside(w: World, v: World, faucet: Key, us: set<Key>, k: Key)
    requires Confined(w, v, faucet, us) && k != faucet && k !in us + w.unsettled
    ensures Held(v, k) == Held(w, k)
  {
  }

  lemma ConfinedSelf(w: World, faucet: Key, us: set<Key>)
    ensures Confined(w, w, faucet, us)
  {
  }

  lemma ConfinedTransitive(a: World, b: World, c: World, faucet: Key, us: set<Key>)
    requires Confined(a, b, faucet, us) && Confined(b, c, faucet, us)
    ensures Confined(a, c, faucet, us)
  {
    forall k | k in c.holdings.Keys + a.holdings.Keys && k != faucet && k !in us + a.unsettled
      ensures Held(c, k) == Held(a, k)
    {
      HeldOutside(a, b, faucet, us, k);
      HeldOutside(b, c, faucet, us, k);
    }
  }

  /** A change confined to a user whose file is on disk keeps everyone recoverable. */
  lemma ConfinedIsSafe(w: World, v: World, faucet: Key, u: Key, jobs: seq<Job>)
    requires Safe(w, jobs) && Confined(w, v, faucet, {u}) && OnDisk(w, u)
    requires forall i :: 0 <= i < |jobs| ==> jobs[i].user != faucet
    ensures Safe(v, jobs)
  {
    forall i | 0 <= i < |jobs| && MayHold(v, jobs[i])
      ensures OnDisk(v, jobs[i].user)
    {
      var k := jobs[i].user;
      if k != u && k !in w.unsettled {
        HeldOutside(w, v, faucet, {u}, k);
        assert MayHold(w, jobs[i]);
      } else if k != u {
        assert MayHold(w, jobs[i]);
      }
    }
  }

  // ---------------------------------------------------------------- effects of the transactions

  /** A lamport transfer with the faucet paying the fee. */
  predicate CanTransfer(w: World, faucet: Key, from: Key, amount: nat, fee: nat) {
    && amount <= Held(w, from).lamports
    && fee <= Held(w, faucet).lamports
    && (from == faucet ==> amount + fee <= Held(w, faucet).lamports)
  }

  function Credit(w: World, k: Key, amount: nat): World {
    SetHeld(w, k, Held(w, k).(lamports := Held(w, k).lamports + amount))
  }

  function Debit(w: World, k: Key, amount: nat): World
    requires amount <= Held(w, k).lamports
  {
    SetHeld(w, k, Held(w, k).(lamports := Held(w, k).lamports - amount))
  }

  function Transferred(w: World, faucet: Key, from: Key, to: Key, amount: nat, fee: nat): World
    requires CanTransfer(w, faucet, from, amount, fee)
  {
    Credit(Debit(Debit(w, faucet, fee), from, amount), to, amount)
  }

  /** Returning a token balance: the faucet's account is created if it is missing, the whole balance
      is moved, and the user's account is closed to the faucet. The faucet pays fee and rent. */
  function OpeningCost(w: World, faucet: Key, mint: Mint, newRent: nat): nat {
    if mint in Held(w, faucet).tokens then 0 else newRent
  }

  predicate CanReturn(w: World, faucet: Key, user: Key, mint: Mint, fee: nat, newRent: nat) {
    && mint in Held(w, user).tokens && user != faucet
    && fee + OpeningCost(w, faucet, mint, newRent) <= Held(w, faucet).lamports
  }

  function Returned(w: World, faucet: Key, user: Key, mint: Mint, fee: nat, newRent: nat): World
    requires CanReturn(w, faucet, user, mint, fee, newRent)
  {
    var ata := Held(w, user).tokens[mint];
    var f := Held(w, faucet);
    var own := if mint in f.tokens then f.tokens[mint] else TokenAccount(0, newRent);
    var f' := Holding(f.lamports - fee - OpeningCost(w, faucet, mint, newRent) + ata.rent,
                      f.tokens[mint := own.(amount := own.amount + ata.amount)]);
    var h := Held(w, user);
    SetHeld(SetHeld(w, faucet, f'), user, h.(tokens := h.tokens - {mint}))
  }

  lemma TransferMoves(w: World, faucet: Key, from: Key, to: Key, amount: nat, fee: nat, user: Key)
    requires CanTransfer(w, faucet, from, amount, fee) && user != faucet
             && (from, to) in {(faucet, user), (user, faucet)}
    ensures Confined(w, Transferred(w, faucet, from, to, amount, fee), faucet, {user})
    ensures Transferred(w, faucet, from, to, amount, fee).unsettled == w.unsettled
    ensures from == user ==> amount <= Held(w, user).lamports
                             && Held(Transferred(w, faucet, from, to, amount, fee), user)
                                == Held(w, user).(lamports := Held(w, user).lamports - amount)
  {
  }

  lemma ReturnIsConfined(w: World, faucet: Key, user: Key, mint: Mint, fee: nat, newRent: nat)
    requires CanReturn(w, faucet, user, mint, fee, newRent)
    ensures Confined(w, Returned(w, faucet, user, mint, fee, newRent), faucet, {user})
    ensures Returned(w, faucet, user, mint, fee, newRent).unsettled == w.unsettled
    ensures Held(Returned(w, faucet, user, mint, fee, newRent), user) == Without(Held(w, user), {mint})
  {
  }

  lemma DoubtIsConfined(w: World, faucet: Key, user: Key)
    ensures Confined(w, w.(unsettled := w.unsettled + {user}), faucet, {user})
  {
  }

  lemma NoAccount(h: Holding, mint: Mint)
    requires mint !in h.tokens
    ensures Without(h, {mint}) == h
  {
    assert h.tokens - {mint} == h.tokens;
  }

  // ---------------------------------------------------------------- the environment

  /** How a submitted transaction ends. An error does not tell whether it landed, or will. */
  datatype Fate = Confirmed | NeverLands | LandedWithoutAnswer | MayStillLand

  /** What happens around one call: how it fails, what it costs, what users in doubt end up with. */
  datatype Behaviour = Behaviour(
    drift: map<Key, Holding>,
    fails: bool,
    fate: Fate,
    fee: nat,
    newRent: nat,
    flow: seq<Holding>)

  function Drifted(w: World, faucet: Key, drift: map<Key, Holding>): World {
    var moving := if w.unsettled == {} then {} else w.unsettled + {faucet};
    w.(holdings := w.holdings + (map k | k in drift && k in moving :: drift[k]))
  }

  /** Late transactions spare everyone who has none. */
  lemma DriftSpares(w: World, faucet: Key, drift: map<Key, Holding>, k: Key)
    requires k != faucet && k !in w.unsettled
    ensures Held(Drifted(w, faucet, drift), k) == Held(w, k)
  {
  }

  lemma WithoutBoth(h: Holding, a: Mint, b: Mint)
    ensures Without(Without(h, {a}), {b}) == Without(h, {a, b})
  {
    assert h.tokens - {a} - {b} == h.tokens - {a, b};
  }

  /** A token return at this call succeeds: there is no account to close, or the transaction goes through. */
  predicate ReturnGoesThrough(w: World, faucet: Key, user: Key, m: Mint, b: Behaviour) {
    && !b.fails
    && (m in Held(w, user).tokens ==> b.fate.Confirmed? && CanReturn(w, faucet, user, m, b.fee, b.newRent))
  }

  function AfterReturn(w: World, faucet: Key, user: Key, m: Mint, b: Behaviour): World
    requires ReturnGoesThrough(w, faucet, user, m, b)
  {
    if m in Held(w, user).tokens then Returned(w, faucet, user, m, b.fee, b.newRent) else w
  }

  /** Reading the balance and sending all of it succeeds. */
  predicate LamportsGoThrough(w: World, faucet: Key, user: Key, read: Behaviour, send: Behaviour) {
    && !read.fails
    && var amount := Held(w, user).lamports;
       amount > 0 ==>
         send.fate.Confirmed? && CanTransfer(Drifted(w, faucet, send.drift), faucet, user, amount, send.fee)
  }

  /** A reclaim that begins at this call succeeds; before each of its calls, transactions in doubt may land. */
  predicate ReclaimGoesThrough(w: World, faucet: Key, user: Key, a: Mint, b: Mint, behave: nat -> Behaviour,
                               call: nat) {
    var w1 := Drifted(w, faucet, behave(call).drift);
    && ReturnGoesThrough(w1, faucet, user, a, behave(call))
    && var w2 := Drifted(AfterReturn(w1, faucet, user, a, behave(call)), faucet, behave(call + 1).drift);
       && ReturnGoesThrough(w2, faucet, user, b, behave(call + 1))
       && var w3 := Drifted(AfterReturn(w2, faucet, user, b, behave(call + 1)), faucet, behave(call + 2).drift);
          LamportsGoThrough(w3, faucet, user, behave(call + 2), behave(call + 3))
  }

  datatype What = Save | Flow | Reclaim | Remove

  datatype Deed = Deed(what: What, user: Key, ok: bool)

  class Env {
    const behave: nat -> Behaviour
    const faucet: Key
    var calls: nat
    var world: World
    /** Every state the world has been in, the current one last. */
    ghost var history: seq<World>
    /** What the command has done for each user, and whether it went through. */
    ghost var deeds: seq<Deed>
    /** How many calls have failed. */
    ghost var failures: nat

    ghost predicate Valid()
      reads this
    {
      history != [] && history[|history| - 1] == world
    }

    constructor (behave: nat -> Behaviour, faucet: Key, world: World)
      ensures Valid() && this.world == world && this.faucet == faucet && this.behave == behave && history == [world]
    {
      this.behave, this.faucet, this.world := behave, faucet, world;
      calls := 0;
      history, deeds, failures := [world], [], 0;
    }

    /** Everything since `from` is confined to the users in `us`. */
    ghost predicate Trail(w: World, from: nat, us: set<Key>)
      reads this
    {
      && Valid() && from <= |history|
      && Confined(w, world, faucet, us)
      && forall i :: from <= i < |history| ==> Confined(w, history[i], faucet, us)
    }

    method Commit(w: World)
      requires Valid()
      modifies this`world, this`history
      ensures Valid() && world == w && history == old(history) + [w]
    {
      world := w;
      history := history + [w];
    }

    /** The next call begins: late transactions of users in doubt may have landed by now. */
    method Next(ghost us: set<Key>) returns (b: Behaviour)
      requires Valid()
      modifies this
      ensures b == behave(old(calls)) && calls == old(calls) + 1
      ensures Trail(old(world), |old(history)|, us) && history == old(history) + [world]
      ensures old(world).unsettled == {} ==> world == old(world)
      ensures world.unsettled == old(world).unsettled && deeds == old(deeds) && failures == old(failures)
      ensures world == Drifted(old(world), faucet, b.drift)
    {
      b := behave(calls);
      calls := calls + 1;
      ghost var w := world;
      Commit(Drifted(world, faucet, b.drift));
      if w.unsettled == {} {
        assert w.holdings + map[] == w.holdings;
      }
    }
 
    /** A state reached within one operation, seen from where the operation began. */
    method Step(w: World, ghost start: World, ghost from: nat, ghost us: set<Key>)
      requires Trail(start, from, us) && Confined(world, w, faucet, us)
      modifies this`world, this`history
      ensures Trail(start, from, us) && world == w && old(history) <= history
    {
      ConfinedTransitive(start, world, w, faucet, us);
      Commit(w);
    }

    /** `transfer_lamports` between the faucet and `user`, the faucet paying the fee. */
    method TransferLamports(from: Key, to: Key, amount: nat, user: Key) returns (ok: bool)
      requires Valid() && (from, to) in {(faucet, user), (user, faucet)} && user != faucet
      modifies this
      ensures Trail(old(world), |old(history)|, {user}) && old(history) <= history
      ensures deeds == old(deeds) && failures == old(failures) + (if ok then 0 else 1)
      ensures var b := behave(old(calls)); ok <==>
                amount > 0 && b.fate.Confirmed?
                  && CanTransfer(Drifted(old(world), faucet, b.drift), faucet, from, amount, b.fee)
      ensures amount == 0 ==> !ok && world == old(world)
      ensures ok ==> world.unsettled == old(world).unsettled
      ensures ok && from == user && user !in old(world).unsettled ==>
                amount <= Held(old(world), user).lamports
                && Held(world, user) == Held(old(world), user).(lamports := Held(old(world), user).lamports - amount)
      ensures calls == old(calls) + (if amount == 0 then 0 else 1)
      ensures ok && old(world).unsettled == {} ==>
                var fee := behave(old(calls)).fee;
                CanTransfer(old(world), faucet, from, amount, fee)
                && world == Transferred(old(world), faucet, from, to, amount, fee)
    {
      hide Confined, Drifted, Transferred, CanTransfer, Held;
      ok := false;
      ghost var start, n := world, |history|;
      if amount == 0 {
        ConfinedSelf(world, faucet, {user});
        failures := failures + 1;
        return;
      }
      var b := Next({user});
      if user !in start.unsettled { DriftSpares(start, faucet, b.drift, user); }
      if CanTransfer(world, faucet, from, amount, b.fee) {
        TransferMoves(world, faucet, from, to, amount, b.fee, user);
        DoubtIsConfined(world, faucet, user);
        if b.fate.Confirmed? || b.fate.LandedWithoutAnswer? {
          Step(Transferred(world, faucet, from, to, amount, b.fee), start, n, {user});
          ok := b.fate.Confirmed?;
        }
        if b.fate.MayStillLand? {
          Step(world.(unsettled := world.unsettled + {user}), start, n, {user});
        }
      }
      failures := if ok then failures else failures + 1;
    }

    /** `run_user_flow`: a sequence of transactions that move only the user's holding (and the pool's). */
    method RunUserFlow(user: Key) returns (ok: bool)
      requires Valid() && user != faucet
      modifies this
      ensures Trail(old(world), |old(history)|, {user}) && old(history) <= history
      ensures deeds == old(deeds) + [Deed(Flow, user, ok)] && failures == old(failures) + (if ok then 0 else 1)
      ensures calls == old(calls) + 1 && (ok <==> behave(old(calls)).fate.Confirmed?)
      ensures world.unsettled == if ok then old(world).unsettled else old(world).unsettled + {user}
      ensures behave(old(calls)).flow != [] ==>
                Held(world, user) == behave(old(calls)).flow[|behave(old(calls)).flow| - 1]
      ensures ok && old(world).unsettled == {} ==> world == SetHeld(old(world), user, Held(world, user))
    {
      ghost var start, n := world, |history|;
      var b := Next({user});
      ghost var begun := world;
      Step(SetHeld(world, user, Held(world, user)), start, n, {user});
      for i := 0 to |b.flow|
        invariant Trail(start, n, {user}) && old(history) <= history && deeds == old(deeds) && failures == old(failures)
        invariant world == SetHeld(begun, user, Held(world, user)) && calls == old(calls) + 1
        invariant i > 0 ==> Held(world, user) == b.flow[i - 1]
      {
        Step(SetHeld(world, user, b.flow[i]), start, n, {user});
      }
      ok := b.fate.Confirmed?;
      deeds := deeds + [Deed(Flow, user, ok)];
      if !ok {
        failures := failures + 1;
        Step(world.(unsettled := world.unsettled + {user}), start, n, {user});
      }
    }

    /** `return_token_balance`: `None` when a read or the transaction fails, otherwise whether there
        was an account to close. */
    method ReturnTokenBalance(user: Key, mint: Mint) returns (r: Option<bool>)
      requires Valid() && user != faucet
      modifies this
      ensures Trail(old(world), |old(history)|, {user}) && old(history) <= history
      ensures deeds == old(deeds) && failures == old(failures) + (if r.Some? then 0 else 1)
      ensures var b := behave(old(calls));
              var w := Drifted(old(world), faucet, b.drift);
              && (r.Some? <==> ReturnGoesThrough(w, faucet, user, mint, b))
              && (r.Some? ==> world == AfterReturn(w, faucet, user, mint, b))
      ensures calls == old(calls) + 1 && (r.Some? ==> world.unsettled == old(world).unsettled)
      ensures r.Some? && user !in old(world).unsettled ==>
                Held(world, user) == Without(Held(old(world), user), {mint})
      ensures r.Some? && old(world).unsettled == {} ==>
                TokenStep(old(world), world, faucet, user, mint, behave(old(calls)))
                && r.value == (mint in Held(old(world), user).tokens)
    {
      hide Confined, Drifted, Returned, CanReturn, Held, Without;
      ghost var start, n := world, |history|;
      r := None;
      var b := Next({user});
      if user !in start.unsettled { DriftSpares(start, faucet, b.drift, user); }
      if !b.fails && mint !in Held(world, user).tokens {
        NoAccount(Held(world, user), mint);
        r := Some(false);
      } else if !b.fails && CanReturn(world, faucet, user, mint, b.fee, b.newRent) {
        ghost var w := world;
        ReturnIsConfined(w, faucet, user, mint, b.fee, b.newRent);
        DoubtIsConfined(w, faucet, user);
        if b.fate.Confirmed? || b.fate.LandedWithoutAnswer? {
          Step(Returned(world, faucet, user, mint, b.fee, b.newRent), start, n, {user});
          r := if b.fate.Confirmed? then Some(true) else None;
        } else if b.fate.MayStillLand? {
          Step(world.(unsettled := world.unsettled + {user}), start, n, {user});
        }
      }
      failures := if r.None? then failures + 1 else failures;
    }

    /** The keypair file: created, then written; either can fail, and an existing file is an error. */
    method SaveRecoveryFile(user: Key) returns (ok: bool)
      requires Valid() && world.unsettled == {}
      modifies this
      ensures Valid() && old(history) <= history
      ensures forall i :: |old(history)| <= i < |history| ==> SameButFile(old(world), history[i], user)
      ensures SameButFile(old(world), world, user)
      ensures ok <==> !behave(old(calls)).fails && user !in old(world).files && !behave(old(calls) + 1).fails
      ensures calls == old(calls) + (if behave(old(calls)).fails || user in old(world).files then 1 else 2)
      ensures ok ==> OnDisk(world, user)
      ensures deeds == old(deeds) + [Deed(Save, user, ok)] && failures == old(failures) + (if ok then 0 else 1)
    {
      hide Drifted, Confined, Held;
      ok := false;
      var create := Next({});
      if !create.fails && user !in world.files {
        Commit(world.(files := world.files[user := Partial]));
        var write := Next({});
        if !write.fails {
          Commit(world.(files := world.files[user := Complete]));
          ok := true;
        }
      }
      deeds := deeds + [Deed(Save, user, ok)];
      failures := if ok then failures else failures + 1;
    }

    method RemoveRecoveryFile(user: Key) returns (ok: bool)
      requires Valid() && world.unsettled == {}
      modifies this
      ensures Valid() && old(history) <= history
      ensures forall i :: |old(history)| <= i < |history| ==> SameButFile(old(world), history[i], user)
      ensures calls == old(calls) + 1 && (ok <==> !behave(old(calls)).fails)
      ensures world == if ok then old(world).(files := old(world).files - {user}) else old(world)
      ensures deeds == old(deeds) + [Deed(Remove, user, ok)] && failures == old(failures) + (if ok then 0 else 1)
    {
      var b := Next({});
      ok := !b.fails;
      deeds := deeds + [Deed(Remove, user, ok)];
      failures := if ok then failures else failures + 1;
      if ok {
        Commit(world.(files := world.files - {user}));
      }
    }

    /** An operation after others continues their trail. */
    lemma JoinTrails(start: World, from: nat, mid: World, h: seq<World>, us: set<Key>)
      requires from <= |h| && h <= history && Confined(start, mid, faucet, us) && Trail(mid, |h|, us)
      requires forall i :: from <= i < |h| ==> Confined(start, h[i], faucet, us)
      ensures Trail(start, from, us)
    {
      ConfinedTransitive(start, mid, world, faucet, us);
      forall i | from <= i < |history|
        ensures Confined(start, history[i], faucet, us)
      {
        if i < |h| {
          assert history[i] == h[i];
        } else {
          ConfinedTransitive(start, mid, history[i], faucet, us);
        }
      }
    }

    /** The second half of `reclaim_user_funds`: read the balance and send all of it, if there is any. */
    method ReturnLamports(user: Key) returns (ok: bool)
      requires Valid() && user != faucet
      modifies this
      ensures Trail(old(world), |old(history)|, {user}) && old(history) <= history
      ensures deeds == old(deeds) && failures == old(failures) + (if ok then 0 else 1)
      ensures ok <==> LamportsGoThrough(Drifted(old(world), faucet, behave(old(calls)).drift), faucet, user,
                                        behave(old(calls)), behave(old(calls) + 1))
      ensures ok ==> world.unsettled == old(world).unsettled
      ensures ok && user !in old(world).unsettled ==> Held(world, user) == Held(old(world), user).(lamports := 0)
      ensures old(calls) < calls <= old(calls) + 2
      ensures ok && old(world).unsettled == {} ==> LamportStep(old(world), world, faucet, user, behave(old(calls) + 1))
    {
      hide Confined, Drifted, Transferred, CanTransfer;
      ghost var start, n := world, |history|;
      var call := Next({user});
      if user !in start.unsettled { DriftSpares(start, faucet, call.drift, user); }
      if call.fails {
        failures := failures + 1;
        return false;
      }
      var lamports := Held(world, user).lamports;
      ok := true;
      if lamports > 0 {
        ghost var w, h := world, history;
        ok := TransferLamports(user, faucet, lamports, user);
        JoinTrails(start, n, w, h, {user});
      }
    }

    /** `reclaim_user_funds`: both token balances, then all lamports. */
    method ReclaimUserFunds(user: Key, mintA: Mint, mintB: Mint) returns (ok: bool)
      requires Valid() && user != faucet && mintA != mintB
      modifies this
      ensures deeds == old(deeds) + [Deed(Reclaim, user, ok)] && failures == old(failures) + (if ok then 0 else 1)
      ensures Trail(old(world), |old(history)|, {user}) && old(history) <= history
      ensures ok <==> ReclaimGoesThrough(old(world), faucet, user, mintA, mintB, behave, old(calls))
      ensures ok ==> world.unsettled == old(world).unsettled
      // a user with nothing in doubt is emptied, whoever else is in doubt
      ensures ok && user !in old(world).unsettled ==>
                Held(world, user) == Without(Held(old(world), user), {mintA, mintB}).(lamports := 0)
      ensures old(calls) < calls <= old(calls) + 4 && (ok ==> calls >= old(calls) + 3)
      // when nobody is in doubt, the faucet gets all of it, at exactly the cost of these calls
      ensures ok && old(world).unsettled == {} ==>
                Reclaimed(old(world), world, faucet, user, mintA, mintB,
                          ReclaimCost(old(world), faucet, user, mintA, mintB, behave, old(calls)))
    {
      hide Confined, TokenStep, LamportStep, Reclaimed, CanReturn, Drifted, Held, TokenCost, LamportCost,
           ReturnGoesThrough, AfterReturn, LamportsGoThrough;
      ghost var start, n := world, |history|;
      var a := ReturnTokenBalance(user, mintA);
      if a.None? {
        deeds := deeds + [Deed(Reclaim, user, false)];
        return false;
      }
      ghost var w1, h1 := world, history;
      var b := ReturnTokenBalance(user, mintB);
      JoinTrails(start, n, w1, h1, {user});
      if b.None? {
        deeds := deeds + [Deed(Reclaim, user, false)];
        return false;
      }
      ghost var w2, h2 := world, history;
      ok := ReturnLamports(user);
      JoinTrails(start, n, w2, h2, {user});
      deeds := deeds + [Deed(Reclaim, user, ok)];
      WithoutBoth(Held(start, user), mintA, mintB);
      if ok && start.unsettled == {} {
        ReclaimAddsUp(start, w1, w2, world, faucet, user, mintA, mintB,
                      behave(old(calls)), behave(old(calls) + 1), behave(old(calls) + 3));
      }
    }
  }

  /** Holdings and doubts as before; only the file of `user` may differ. */
  predicate SameButFile(w: World, v: World, user: Key) {
    v.holdings == w.holdings && v.unsettled == w.unsettled && v.files - {user} == w.files - {user}
  }

  lemma FileChangeIsSafe(w: World, v: World, user: Key, jobs: seq<Job>)
    requires Safe(w, jobs) && SameButFile(w, v, user)
    requires forall i :: 0 <= i < |jobs| && jobs[i].user == user ==> !MayHold(w, jobs[i])
    ensures Safe(v, jobs)
  {
    forall i | 0 <= i < |jobs| && MayHold(v, jobs[i])
      ensures OnDisk(v, jobs[i].user)
    {
      assert MayHold(w, jobs[i]) && OnDisk(w, jobs[i].user);
      assert jobs[i].user in w.files - {user};
    }
  }

  lemma FileOthers(w: World, v: World, user: Key, k: Key)
    requires SameButFile(w, v, user) && k != user
    ensures OnDisk(v, k) == OnDisk(w, k) && (k in v.files) == (k in w.files)
  {
    assert k in v.files <==> k in v.files - {user};
    assert k in w.files <==> k in w.files - {user};
    if k in v.files { assert (v.files - {user})[k] == v.files[k] && (w.files - {user})[k] == w.files[k]; }
  }

  /** What one token return did, in a run without transactions in doubt. */
  predicate TokenStep(w: World, v: World, faucet: Key, user: Key, m: Mint, b: Behaviour) {
    if m !in Held(w, user).tokens then v == w
    else CanReturn(w, faucet, user, m, b.fee, b.newRent) && v == Returned(w, faucet, user, m, b.fee, b.newRent)
  }

  predicate LamportStep(w: World, v: World, faucet: Key, user: Key, b: Behaviour) {
    var amount := Held(w, user).lamports;
    if amount == 0 then v == w
    else CanTransfer(w, faucet, user, amount, b.fee) && v == Transferred(w, faucet, user, faucet, amount, b.fee)
  }

  /** What returning one token balance costs the faucet: the fee, and its own account if it has none. */
  function TokenCost(w: World, faucet: Key, user: Key, m: Mint, b: Behaviour): nat {
    if m in Held(w, user).tokens then b.fee + OpeningCost(w, faucet, m, b.newRent) else 0
  }

  function LamportCost(w: World, user: Key, b: Behaviour): nat {
    if Held(w, user).lamports > 0 then b.fee else 0
  }

  /** What a reclaim that begins at this call costs the faucet: two token returns, one read, one transfer. */
  function ReclaimCost(w: World, faucet: Key, user: Key, a: Mint, b: Mint, behave: nat -> Behaviour, call: nat): nat {
    TokenCost(w, faucet, user, a, behave(call)) + TokenCost(w, faucet, user, b, behave(call + 1))
    + LamportCost(w, user, behave(call + 3))
  }

  /** Both token balances returned, the lamports still to go. */
  ghost predicate TokensReturned(w: World, v: World, faucet: Key, user: Key, a: Mint, b: Mint, cost: nat) {
    && v.files == w.files && v.unsettled == w.unsettled
    && Held(v, user) == Holding(Held(w, user).lamports, Held(w, user).tokens - {a, b})
    && Held(v, faucet).lamports + cost == Held(w, faucet).lamports + Rent(w, user, a) + Rent(w, user, b)
    && (forall m :: Tokens(v, faucet, m) == Tokens(w, faucet, m) + (if m == a || m == b then Tokens(w, user, m) else 0))
    && (forall k :: k != faucet && k != user ==> Held(v, k) == Held(w, k))
  }

  /** The first return changes nothing the second one's cost and proceeds depend on. */
  lemma OtherMint(w: World, w1: World, faucet: Key, user: Key, a: Mint, b: Mint, ba: Behaviour, bb: Behaviour)
    requires user != faucet && a != b && TokenStep(w, w1, faucet, user, a, ba)
    ensures ReturnedAtCost(w, w1, faucet, user, a, TokenCost(w, faucet, user, a, ba))
    ensures TokenCost(w1, faucet, user, b, bb) == TokenCost(w, faucet, user, b, bb)
    ensures Tokens(w1, user, b) == Tokens(w, user, b) && Rent(w1, user, b) == Rent(w, user, b)
  {
    if a in Held(w, user).tokens {
      ReturnMoves(w, faucet, user, a, ba.fee, ba.newRent);
    } else {
      assert Held(w, user).tokens - {a} == Held(w, user).tokens;
    }
  }

  lemma BothTokens(w: World, w1: World, w2: World, faucet: Key, user: Key, a: Mint, b: Mint, ba: Behaviour,
                   bb: Behaviour)
    requires user != faucet && a != b
    requires TokenStep(w, w1, faucet, user, a, ba) && TokenStep(w1, w2, faucet, user, b, bb)
    ensures TokensReturned(w, w2, faucet, user, a, b,
                           TokenCost(w, faucet, user, a, ba) + TokenCost(w, faucet, user, b, bb))
  {
    OtherMint(w, w1, faucet, user, a, b, ba, bb);
    OtherMint(w1, w2, faucet, user, b, a, bb, ba);
    hide TokenStep, TokenCost, Tokens, Rent, Held;
    assert Held(w, user).tokens - {a} - {b} == Held(w, user).tokens - {a, b};
  }

  lemma ReclaimAddsUp(w: World, w1: World, w2: World, v: World, faucet: Key, user: Key, a: Mint, b: Mint,
                      ba: Behaviour, bb: Behaviour, bt: Behaviour)
    requires user != faucet && a != b && TokenStep(w, w1, faucet, user, a, ba)
    requires TokenStep(w1, w2, faucet, user, b, bb) && LamportStep(w2, v, faucet, user, bt)
    ensures Reclaimed(w, v, faucet, user, a, b,
                      TokenCost(w, faucet, user, a, ba) + TokenCost(w, faucet, user, b, bb) + LamportCost(w, user, bt))
  {
    BothTokens(w, w1, w2, faucet, user, a, b, ba, bb);
    hide TokenStep, TokenCost;
  }

  function Tokens(w: World, k: Key, m: Mint): nat {
    if m in Held(w, k).tokens then Held(w, k).tokens[m].amount else 0
  }

  function Rent(w: World, k: Key, m: Mint): nat {
    if m in Held(w, k).tokens then Held(w, k).tokens[m].rent else 0
  }

  /** The user's account is gone, its balance and rent are the faucet's, and nothing else moved. */
  ghost predicate ReturnedAtCost(w: World, v: World, faucet: Key, user: Key, m: Mint, cost: nat) {
    && v.files == w.files && v.unsettled == w.unsettled
    && Held(v, user) == Holding(Held(w, user).lamports, Held(w, user).tokens - {m})
    && Held(v, faucet).lamports + cost == Held(w, faucet).lamports + Rent(w, user, m)
    && Tokens(v, faucet, m) == Tokens(w, faucet, m) + Tokens(w, user, m)
    && (forall o :: o != m ==> Tokens(v, faucet, o) == Tokens(w, faucet, o))
    && (forall k :: k != faucet && k != user ==> Held(v, k) == Held(w, k))
  }

  lemma ReturnMoves(w: World, faucet: Key, user: Key, mint: Mint, fee: nat, newRent: nat)
    requires CanReturn(w, faucet, user, mint, fee, newRent)
    ensures ReturnedAtCost(w, Returned(w, faucet, user, mint, fee, newRent), faucet, user, mint,
                           fee + OpeningCost(w, faucet, mint, newRent))
  {
  }

  /** A complete reclaim: everything the user held of the two mints, the rent of those accounts and
      all its lamports are the faucet's, less what the faucet paid for it; nobody else moved. */
  ghost predicate Reclaimed(w: World, v: World, faucet: Key, user: Key, a: Mint, b: Mint, cost: nat) {
    && v.files == w.files && v.unsettled == w.unsettled
    && Held(v, user) == Holding(0, Held(w, user).tokens - {a, b})
    && Held(v, faucet).lamports + cost == Held(w, faucet).lamports + Held(w, user).lamports + Rent(w, user,
       a) + Rent(w, user, b)
    && (forall m :: Tokens(v, faucet, m) == Tokens(w, faucet, m) + (if m == a || m == b then Tokens(w, user, m) else 0))
    && (forall k :: k != faucet && k != user ==> Held(v, k) == Held(w, k))
  }

  /** A complete reclaim leaves the user empty-handed exactly when it held token accounts of no other
      mint than the pool's two. */
  lemma ReclaimEmptiesWhen(w: World, v: World, faucet: Key, user: Key, a: Mint, b: Mint, cost: nat)
    requires Reclaimed(w, v, faucet, user, a, b, cost)
    ensures Held(v, user) == NOTHING <==> Held(w, user).tokens.Keys <= {a, b}
  {
    LeftOver(Held(w, user).tokens, a, b);
  }

  /** A user whose pool also pays a reward in a third mint: the reclaim is complete, and the account
      of the third mint stays with the user. */
  lemma ThirdMintStays() returns (w: World, v: World)
    ensures Reclaimed(w, v, 0, 1, 10, 11, 15) && Held(v, 1) == Holding(0, map[12 := TokenAccount(3, 2)])
  {
    var user := Holding(50, map[10 := TokenAccount(7, 2), 12 := TokenAccount(3, 2)]);
    w := World(map[0 := Holding(100, map[10 := TokenAccount(0, 2)]), 1 := user], map[1 := Complete], {});
    assert CanReturn(w, 0, 1, 10, 5, 2);
    var w1 := Returned(w, 0, 1, 10, 5, 2);
    assert 11 !in Held(w1, 1).tokens && CanTransfer(w1, 0, 1, 50, 10);
    v := Transferred(w1, 0, 1, 0, 50, 10);
    var five := Behaviour(map[], false, Confirmed, 5, 2, []);
    ReclaimAddsUp(w, w1, w1, v, 0, 1, 10, 11, five, five, five.(fee := 10));
    assert user.tokens - {10, 11} == map[12 := TokenAccount(3, 2)];
  }

  lemma LeftOver(tokens: map<Mint, TokenAccount>, a: Mint, b: Mint)
    ensures tokens - {a, b} == map[] <==> tokens.Keys <= {a, b}
  {
    assert (tokens - {a, b}).Keys == tokens.Keys - {a, b};
    if tokens.Keys <= {a, b} {
      assert tokens - {a, b} == map[];
    } else {
      assert (tokens - {a, b}).Keys != {};
    }
  }
}
