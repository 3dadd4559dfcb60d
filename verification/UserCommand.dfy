/** The command over all users: fund each, run and reclaim each, whatever fails on the way. */
module UserCommand {
  import opened Wrappers
  import opened MintPairs
  import opened UserFlows

  // ---------------------------------------------------------------- the jobs and their files

  predicate ValidJobs(jobs: seq<Job>, faucet: Key) {
    && DistinctUsers(jobs)
    && forall i :: 0 <= i < |jobs| ==> jobs[i].user != faucet && jobs[i].mintA != jobs[i].mintB
  }

  /** Freshly generated keys: no holdings and no file. */
  predicate Unknown(w: World, k: Key) { Held(w, k) == NOTHING && k !in w.files && k !in w.unsettled }

  ghost predicate SafeSince(history: seq<World>, from: nat, jobs: seq<Job>) {
    forall i :: from <= i < |history| ==> Safe(history[i], jobs)
  }

  lemma SafeSinceTrail(env: Env, w: World, h: seq<World>, from: nat, u: Key, jobs: seq<Job>)
    requires env.Trail(w, |h|, {u}) && h <= env.history && from <= |h| && SafeSince(h, from, jobs)
    requires Safe(w, jobs) && OnDisk(w, u) && ValidJobs(jobs, env.faucet)
    ensures SafeSince(env.history, from, jobs) && Safe(env.world, jobs)
  {
    ConfinedIsSafe(w, env.world, env.faucet, u, jobs);
    forall i | from <= i < |env.history|
      ensures Safe(env.history[i], jobs)
    {
      if i < |h| {
        assert env.history[i] == h[i];
      } else {
        ConfinedIsSafe(w, env.history[i], env.faucet, u, jobs);
      }
    }
  }

  lemma SafeSinceFile(env: Env, w: World, h: seq<World>, from: nat, u: Key, jobs: seq<Job>)
    requires env.Valid() && h <= env.history && from <= |h| && SafeSince(h, from, jobs) && Safe(w, jobs)
    requires forall i :: |h| <= i < |env.history| ==> SameButFile(w, env.history[i], u)
    requires SameButFile(w, env.world, u)
    requires forall i :: 0 <= i < |jobs| && jobs[i].user == u ==> !MayHold(w, jobs[i])
    ensures SafeSince(env.history, from, jobs) && Safe(env.world, jobs)
  {
    FileChangeIsSafe(w, env.world, u, jobs);
    forall i | from <= i < |env.history|
      ensures Safe(env.history[i], jobs)
    {
      if i < |h| {
        assert env.history[i] == h[i];
      } else {
        FileChangeIsSafe(w, env.history[i], u, jobs);
      }
    }
  }

  /** Every user in `jobs[..i]` has its file; the others are still unknown. */
  predicate FundedUpTo(w: World, jobs: seq<Job>, i: nat) {
    && i <= |jobs| && w.unsettled == {}
    && (forall k :: 0 <= k < i ==> OnDisk(w, jobs[k].user))
    && (forall k :: i <= k < |jobs| ==> Unknown(w, jobs[k].user))
  }

  /** The faucet has paid `amount` lamports and nothing else. */
  ghost predicate Paid(w: World, v: World, faucet: Key, amount: nat) {
    && Held(v, faucet).lamports + amount == Held(w, faucet).lamports
    && forall m :: Tokens(v, faucet, m) == Tokens(w, faucet, m)
  }

  /** One user of the funding loop: save the key first, then fund. */
  method FundOne(env: Env, jobs: seq<Job>, i: nat, lamports: nat, ghost from: nat)
    returns (ok: bool, saved: bool)
    requires env.Valid() && ValidJobs(jobs, env.faucet) && i < |jobs| && FundedUpTo(env.world, jobs, i)
    requires from <= |env.history| && SafeSince(env.history, from, jobs) && Safe(env.world, jobs)
    modifies env
    ensures env.Valid() && old(env.history) <= env.history
    ensures SafeSince(env.history, from, jobs) && Safe(env.world, jobs)
    ensures ok ==> FundedUpTo(env.world, jobs, i + 1) && Held(env.world, jobs[i].user).lamports == lamports
    ensures env.failures >= old(env.failures) && (ok <==> env.failures == old(env.failures))
    ensures env.deeds == old(env.deeds) + [Deed(Save, jobs[i].user, saved)] && (ok ==> saved)
    ensures forall k :: 0 <= k < i || (k == i && saved) ==> OnDisk(env.world, jobs[k].user)
    // saving the key takes two calls; the third is the transfer, and its fee is the faucet's
    ensures ok ==> env.calls == old(env.calls) + 3
    ensures ok ==> Paid(old(env.world), env.world, env.faucet, lamports + env.behave(old(env.calls) + 2).fee)
  {
    var user := jobs[i].user;
    ghost var w, h := env.world, env.history;
    saved := env.SaveRecoveryFile(user);
    SafeSinceFile(env, w, h, from, user, jobs);
    ghost var w1, h1 := env.world, env.history;
    forall k | 0 <= k < |jobs| && k != i
      ensures OnDisk(w1, jobs[k].user) == OnDisk(w, jobs[k].user)
              && (jobs[k].user in w1.files) == (jobs[k].user in w.files)
    {
      FileOthers(w, w1, user, jobs[k].user);
    }
    if !saved {
      return false, false;
    }
    ok := env.TransferLamports(env.faucet, user, lamports, user);
    SafeSinceTrail(env, w1, h1, from, user, jobs);
    forall k | i < k < |jobs|
      ensures Held(env.world, jobs[k].user) == Held(w1, jobs[k].user)
    {
      HeldOutside(w1, env.world, env.faucet, {user}, jobs[k].user);
    }
  }

  /** What happens to one user neither gives anything to another that holds nothing, nor puts it in doubt. */
  lemma OthersUntouched(w: World, v: World, faucet: Key, jobs: seq<Job>, i: nat)
    requires ValidJobs(jobs, faucet) && i < |jobs| && Confined(w, v, faucet, {jobs[i].user})
    ensures v.files == w.files
    ensures forall k :: 0 <= k < |jobs| && k != i && !MayHold(w, jobs[k]) ==> !MayHold(v, jobs[k])
    ensures forall k :: 0 <= k < |jobs| && k != i && jobs[k].user !in w.unsettled ==> jobs[k].user !in v.unsettled
  {
    forall k | 0 <= k < |jobs| && k != i && !MayHold(w, jobs[k])
      ensures !MayHold(v, jobs[k])
    {
      HeldOutside(w, v, faucet, {jobs[i].user}, jobs[k].user);
    }
  }

  predicate Tried(d: Deed, user: Key) { d.what == Reclaim && d.user == user }

  /** A failed funding: what was already handed out is fetched back as far as that goes. */
  method ReclaimFunded(env: Env, jobs: seq<Job>, i: nat, ghost from: nat) returns (ghost tail: seq<Deed>)
    requires env.Valid() && ValidJobs(jobs, env.faucet) && i <= |jobs|
    requires forall k :: 0 <= k < i ==> OnDisk(env.world, jobs[k].user)
    requires from <= |env.history| && SafeSince(env.history, from, jobs) && Safe(env.world, jobs)
    modifies env
    ensures env.Valid() && old(env.history) <= env.history
    ensures SafeSince(env.history, from, jobs) && Safe(env.world, jobs)
    ensures env.world.files == old(env.world).files && env.failures >= old(env.failures)
    ensures env.deeds == old(env.deeds) + tail && |tail| == i
    ensures forall k :: 0 <= k < i ==> Tried(tail[k], jobs[k].user)
    // whoever was reclaimed, and had nothing in doubt, holds none of it any more
    ensures forall k :: 0 <= k < i && tail[k].ok && jobs[k].user !in old(env.world).unsettled ==>
              !MayHold(env.world, jobs[k])
  {
    hide Confined, Safe, SafeSince, Held;
    tail := [];
    for k := 0 to i
      invariant env.Valid() && old(env.history) <= env.history
      invariant env.deeds == old(env.deeds) + tail && |tail| == k
      invariant forall l :: 0 <= l < k ==> Tried(tail[l], jobs[l].user)
      invariant forall l :: 0 <= l < k && tail[l].ok && jobs[l].user !in old(env.world).unsettled ==>
                  !MayHold(env.world, jobs[l])
      invariant forall l :: k <= l < i && jobs[l].user !in old(env.world).unsettled ==>
                  jobs[l].user !in env.world.unsettled
      invariant SafeSince(env.history, from, jobs) && Safe(env.world, jobs)
      invariant env.world.files == old(env.world).files && env.failures >= old(env.failures)
    {
      ghost var w, h := env.world, env.history;
      var ok := env.ReclaimUserFunds(jobs[k].user, jobs[k].mintA, jobs[k].mintB);
      tail := tail + [Deed(Reclaim, jobs[k].user, ok)];
      OthersUntouched(w, env.world, env.faucet, jobs, k);
      SafeSinceTrail(env, w, h, from, jobs[k].user, jobs);
    }
  }

  /** Users `jobs[..i]` are finished: file gone, nothing held. The others have their file. */
  predicate FinishedUpTo(w: World, jobs: seq<Job>, i: nat) {
    && i <= |jobs| && w.unsettled == {}
    && (forall k :: 0 <= k < i ==> jobs[k].user !in w.files && !MayHold(w, jobs[k]))
    && (forall k :: i <= k < |jobs| ==> OnDisk(w, jobs[k].user))
  }

  /** What a finished user has behind it: a flow, then a recovery, then the removal of its file. */
  function Completed(user: Key): seq<Deed> {
    [Deed(Flow, user, true), Deed(Reclaim, user, true), Deed(Remove, user, true)]
  }

  function AllSaved(jobs: seq<Job>): seq<Deed> {
    if jobs == [] then [] else AllSaved(jobs[..|jobs| - 1]) + [Deed(Save, jobs[|jobs| - 1].user, true)]
  }

  function AllCompleted(jobs: seq<Job>): seq<Deed> {
    if jobs == [] then [] else AllCompleted(jobs[..|jobs| - 1]) + Completed(jobs[|jobs| - 1].user)
  }

  /** At some state since `from` the user had its file and exactly this many lamports. */
  ghost predicate WasFunded(history: seq<World>, from: nat, user: Key, lamports: nat) {
    exists i :: from <= i < |history| && OnDisk(history[i], user) && Held(history[i], user).lamports == lamports
  }

  lemma StaysFunded(h: seq<World>, h': seq<World>, from: nat, jobs: seq<Job>, n: nat, lamports: nat)
    requires h <= h' && n <= |jobs| && forall k :: 0 <= k < n ==> WasFunded(h, from, jobs[k].user, lamports)
    ensures forall k :: 0 <= k < n ==> WasFunded(h', from, jobs[k].user, lamports)
  {
    forall k | 0 <= k < n
      ensures WasFunded(h', from, jobs[k].user, lamports)
    {
      var i :| from <= i < |h| && OnDisk(h[i], jobs[k].user) && Held(h[i], jobs[k].user).lamports == lamports;
      assert h'[i] == h[i];
    }
  }

  /** A complete reclaim of a user: the state it began in, the one it ended in, and its first call. */
  datatype Recovery = Recovery(before: World, after: World, call: nat)

  /** What the faucet paid for it: the fees and the new accounts of exactly those calls. */
  function CostOf(r: Recovery, faucet: Key, j: Job, behave: nat -> Behaviour): nat {
    ReclaimCost(r.before, faucet, j.user, j.mintA, j.mintB, behave, r.call)
  }

  ghost predicate Recovers(r: Recovery, faucet: Key, j: Job, behave: nat -> Behaviour) {
    Reclaimed(r.before, r.after, faucet, j.user, j.mintA, j.mintB, CostOf(r, faucet, j, behave))
  }

  /** The lamports a recovery brings: the user's own and the rents of its accounts. */
  function Brought(r: Recovery, j: Job): nat {
    Held(r.before, j.user).lamports + Rent(r.before, j.user, j.mintA) + Rent(r.before, j.user, j.mintB)
  }

  function BroughtOf(r: Recovery, j: Job, m: Mint): nat {
    if m == j.mintA || m == j.mintB then Tokens(r.before, j.user, m) else 0
  }

  function AllBrought(rs: seq<Recovery>, jobs: seq<Job>): nat
    requires |rs| <= |jobs|
  {
    if rs == [] then 0 else AllBrought(rs[..|rs| - 1], jobs) + Brought(rs[|rs| - 1], jobs[|rs| - 1])
  }

  function AllBroughtOf(rs: seq<Recovery>, jobs: seq<Job>, m: Mint): nat
    requires |rs| <= |jobs|
  {
    if rs == [] then 0 else AllBroughtOf(rs[..|rs| - 1], jobs, m) + BroughtOf(rs[|rs| - 1], jobs[|rs| - 1], m)
  }

  function AllCosts(rs: seq<Recovery>, jobs: seq<Job>, faucet: Key, behave: nat -> Behaviour): nat
    requires |rs| <= |jobs|
  {
    if rs == [] then 0
    else AllCosts(rs[..|rs| - 1], jobs, faucet, behave) + CostOf(rs[|rs| - 1], faucet, jobs[|rs| - 1], behave)
  }

  /** From `w` to `v` the faucet has got what the recoveries brought, less what their calls cost, and
      nothing else: lamports, rents, and the tokens of every mint. */
  ghost predicate Banked(w: World, v: World, faucet: Key, rs: seq<Recovery>, jobs: seq<Job>, behave: nat -> Behaviour) {
    && |rs| <= |jobs|
    && (forall k :: 0 <= k < |rs| ==> Recovers(rs[k], faucet, jobs[k], behave))
    && Held(v, faucet).lamports + AllCosts(rs, jobs, faucet, behave) == Held(w, faucet).lamports + AllBrought(rs, jobs)
    && forall m :: Tokens(v, faucet, m) == Tokens(w, faucet, m) + AllBroughtOf(rs, jobs, m)
  }

  lemma BankedNothing(w: World, faucet: Key, jobs: seq<Job>, behave: nat -> Behaviour)
    ensures Banked(w, w, faucet, [], jobs, behave)
  {
  }

  lemma BankedOneMore(w: World, mid: World, v: World, faucet: Key, rs: seq<Recovery>, jobs: seq<Job>,
                      behave: nat -> Behaviour, r: Recovery)
    requires |rs| < |jobs| && Banked(w, mid, faucet, rs, jobs, behave) && Recovers(r, faucet, jobs[|rs|], behave)
    requires Held(r.before, faucet) == Held(mid, faucet) && Held(v, faucet) == Held(r.after, faucet)
    ensures Banked(w, v, faucet, rs + [r], jobs, behave)
  {
    hide Held, Rent, ReclaimCost;
    var all := rs + [r];
    assert all[..|all| - 1] == rs;
    assert forall m :: Tokens(r.before, faucet, m) == Tokens(mid, faucet, m) &&
            Tokens(v, faucet, m) == Tokens(r.after, faucet, m) by {
      SameTokens(r.before, mid, faucet);
      SameTokens(v, r.after, faucet);
    }
  }

  lemma SameTokens(w: World, v: World, k: Key)
    requires Held(w, k) == Held(v, k)
    ensures forall m :: Tokens(w, k, m) == Tokens(v, k, m)
  {
  }

  /** The recoveries are made by calls in `from..to`, one recovery after another, none sharing a call. */
  predicate InTurn(rs: seq<Recovery>, from: nat, to: nat) {
    && (forall k :: 0 <= k < |rs| ==> from <= rs[k].call && rs[k].call + 4 <= to)
    && forall k, l :: 0 <= k < l < |rs| ==> rs[k].call + 4 <= rs[l].call
  }

  lemma InTurnLater(rs: seq<Recovery>, from: nat, mid: nat, to: nat)
    requires InTurn(rs, from, mid) && mid <= to
    ensures InTurn(rs, from, to)
  {
  }

  lemma InTurnOneMore(rs: seq<Recovery>, from: nat, mid: nat, r: Recovery, to: nat)
    requires InTurn(rs, from, mid) && from <= mid <= r.call && r.call + 4 <= to
    ensures InTurn(rs + [r], from, to)
  {
  }

  /** The fees of funding `n` users from call `first` on: each is two calls to save the key and one transfer. */
  function FundingFees(behave: nat -> Behaviour, first: nat, n: nat): nat {
    if n == 0 then 0 else FundingFees(behave, first, n - 1) + behave(first + 3 * (n - 1) + 2).fee
  }

  predicate Seen(history: seq<World>, from: nat, w: World) {
    exists i :: from <= i < |history| && history[i] == w
  }

  /** Deeds that change no recovery file: nothing saved, nothing removed. */
  predicate Harmless(deeds: seq<Deed>) {
    forall i :: 0 <= i < |deeds| ==> !(deeds[i].ok && (deeds[i].what.Save? || deeds[i].what.Remove?))
  }

  /** What a run that ends in the funding does after `saved` keys: either the next key could not be saved,
      or the transfer to the last saved user failed, and then one reclaim is tried for every user before it. */
  predicate FailedFunding(rest: seq<Deed>, jobs: seq<Job>, saved: nat) {
    || (saved < |jobs| && rest == [Deed(Save, jobs[saved].user, false)])
    || (0 < saved <= |jobs| && |rest| == saved - 1 && forall k :: 0 <= k < saved - 1 ==> Tried(rest[k], jobs[k].user))
  }

  /** What a run does for the user it ends at: nothing, or the flow and then the reclaim, whatever became of
      the flow; and if both went through, the file could not be removed. */
  predicate FailedFlow(rest: seq<Deed>, user: Key) {
    || rest == []
    || (exists flow, reclaim :: !(flow && reclaim) && rest == [Deed(Flow, user, flow), Deed(Reclaim, user, reclaim)])
    || rest == [Deed(Flow, user, true), Deed(Reclaim, user, true), Deed(Remove, user, false)]
  }

  lemma FailuresAreHarmless(rest: seq<Deed>, jobs: seq<Job>, saved: nat, user: Key)
    requires FailedFunding(rest, jobs, saved) || FailedFlow(rest, user)
    ensures Harmless(rest)
  {
  }

  /** The finished users: file gone, nothing held. Everyone else whose key was saved: the file is there. */
  predicate Standing(w: World, jobs: seq<Job>, saved: nat, finished: nat) {
    && finished <= saved <= |jobs|
    && (forall k :: 0 <= k < finished ==> jobs[k].user !in w.files && !MayHold(w, jobs[k]))
    && (forall k :: finished <= k < saved ==> OnDisk(w, jobs[k].user))
  }

  /** One user's flow and, whether it succeeds or not, the reclaim. */
  method FlowAndReclaim(env: Env, jobs: seq<Job>, i: nat, ghost from: nat)
    returns (ok: bool, ghost tail: seq<Deed>, ghost r: Recovery)
    requires env.Valid() && ValidJobs(jobs, env.faucet) && i < |jobs| && FinishedUpTo(env.world, jobs, i)
    requires from <= |env.history| && SafeSince(env.history, from, jobs) && Safe(env.world, jobs)
    modifies env
    ensures env.Valid() && old(env.history) <= env.history && old(env.calls) <= env.calls
    ensures SafeSince(env.history, from, jobs) && Safe(env.world, jobs)
    ensures env.failures >= old(env.failures) && (ok <==> env.failures == old(env.failures))
    // nothing exactly if the call before the flow fails; otherwise the flow and, in any case, the reclaim
    ensures env.deeds == old(env.deeds) + tail && (tail == [] <==> env.behave(old(env.calls)).fails)
    ensures tail == [] ==> env.calls == old(env.calls) + 1
    ensures tail != [] ==>
              var flow := env.behave(old(env.calls) + 1).fate.Confirmed?;
              && tail == [Deed(Flow, jobs[i].user, flow), Deed(Reclaim, jobs[i].user, tail[|tail| - 1].ok)]
              && (ok <==> flow && tail[1].ok)
              && Seen(env.history, from, r.before)
              && (tail[1].ok <==> ReclaimGoesThrough(r.before, env.faucet, jobs[i].user, jobs[i].mintA, jobs[i].mintB,
                                                     env.behave, old(env.calls) + 2))
    ensures Standing(env.world, jobs, |jobs|, i) && (ok ==> tail != [])
    ensures ok ==> env.world.unsettled == {} && !MayHold(env.world, jobs[i])
    ensures ok ==> Recovers(r, env.faucet, jobs[i], env.behave)
    ensures ok ==> r.after == env.world && Held(r.before, env.faucet) == Held(old(env.world), env.faucet)
    ensures ok ==> r.call == old(env.calls) + 2 && r.call + 3 <= env.calls <= r.call + 4
  {
    hide Reclaimed, SafeSince, Safe, Confined, ReclaimCost, MayHold, OnDisk, DistinctUsers, Drifted, ReclaimGoesThrough,
         Standing;
    var Job(user, mintA, mintB) := jobs[i];
    ghost var w, h := env.world, env.history;
    tail, r := [], Recovery(w, w, 0);
    var start := env.Next({user});
    if start.fails {
      env.failures := env.failures + 1;
      SafeSinceTrail(env, w, h, from, user, jobs);
      OthersStand(w, env.world, env.faucet, jobs, i);
      return false, tail, r;
    }
    ghost var w1, h1 := env.world, env.history;
    var flow := env.RunUserFlow(user);
    env.JoinTrails(w, |h|, w1, h1, {user});
    ghost var w2, h2 := env.world, env.history;
    var recovery := env.ReclaimUserFunds(user, mintA, mintB);
    env.JoinTrails(w, |h|, w2, h2, {user});
    SafeSinceTrail(env, w, h, from, user, jobs);
    OthersStand(w, env.world, env.faucet, jobs, i);
    tail := [Deed(Flow, user, flow), Deed(Reclaim, user, recovery)];
    ok := flow && recovery;
    r := Recovery(w2, env.world, old(env.calls) + 2);
    SeenAt(env.history, |h2| - 1, from, w2);
    if ok {
      NothingLeft(w2, env.world, env.faucet, jobs[i], CostOf(r, env.faucet, jobs[i], env.behave));
    }
  }

  /** One user's flow and recovery. The file goes only when both have succeeded. */
  method FinishOne(env: Env, jobs: seq<Job>, i: nat, ghost from: nat)
    returns (ok: bool, ghost tail: seq<Deed>, ghost r: Recovery)
    requires env.Valid() && ValidJobs(jobs, env.faucet) && i < |jobs| && FinishedUpTo(env.world, jobs, i)
    requires from < |env.history| && SafeSince(env.history, from, jobs) && Safe(env.world, jobs)
    modifies env
    ensures env.Valid() && old(env.history) <= env.history && old(env.calls) <= env.calls
    ensures SafeSince(env.history, from, jobs) && Safe(env.world, jobs)
    ensures env.failures >= old(env.failures) && (ok <==> env.failures == old(env.failures))
    ensures env.deeds == old(env.deeds) + tail
    ensures if ok then tail == Completed(jobs[i].user) else FailedFlow(tail, jobs[i].user)
    ensures !ok && tail == [] ==> env.calls > 0 && env.behave(env.calls - 1).fails
    ensures if ok then FinishedUpTo(env.world, jobs, i + 1) else Standing(env.world, jobs, |jobs|, i)
    // a complete reclaim of this user, with nothing else touching the faucet
    ensures ok ==> Recovers(r, env.faucet, jobs[i], env.behave)
    ensures ok ==> Seen(env.history, from, r.before) && Seen(env.history, from, r.after)
    ensures ok ==> Held(r.before, env.faucet) == Held(old(env.world), env.faucet)
                   && Held(env.world, env.faucet) == Held(r.after, env.faucet)
    ensures ok ==> r.call == old(env.calls) + 2 && r.call + 4 <= env.calls
  {
    hide Recovers, SafeSince, Safe, MayHold, OnDisk, Standing, FinishedUpTo, Seen, ReclaimGoesThrough;
    ok, tail, r := FlowAndReclaim(env, jobs, i, from);
    if !ok {
      if tail != [] { BothTried(tail, jobs[i].user, tail[0].ok, tail[1].ok); }
      return;
    }
    var user := jobs[i].user;
    ghost var w, h := env.world, env.history;
    ok := env.RemoveRecoveryFile(user);
    SafeSinceFile(env, w, h, from, user, jobs);
    tail := tail + [Deed(Remove, user, ok)];
    FileAfter(w, env.world, jobs, i, ok);
    SeenLater(h, env.history, from, r.before);
    SeenAt(env.history, |h| - 1, from, w);
  }

  lemma BothTried(tail: seq<Deed>, user: Key, flow: bool, reclaim: bool)
    requires tail == [Deed(Flow, user, flow), Deed(Reclaim, user, reclaim)] && !(flow && reclaim)
    ensures FailedFlow(tail, user)
  {
  }

  lemma SeenAt(history: seq<World>, i: nat, from: nat, w: World)
    requires from <= i < |history| && history[i] == w
    ensures Seen(history, from, w)
  {
  }

  /** What happens to one user leaves the others finished, or with their file. */
  lemma OthersStand(w: World, v: World, faucet: Key, jobs: seq<Job>, i: nat)
    requires ValidJobs(jobs, faucet) && i < |jobs| && FinishedUpTo(w, jobs, i) && Confined(w, v, faucet, {jobs[i].user})
    ensures Standing(v, jobs, |jobs|, i)
  {
    forall k | 0 <= k < i
      ensures !MayHold(v, jobs[k])
    {
      HeldOutside(w, v, faucet, {jobs[i].user}, jobs[k].user);
      assert !MayHold(w, jobs[k]);
    }
  }

  lemma NothingLeft(w: World, v: World, faucet: Key, j: Job, cost: nat)
    requires Reclaimed(w, v, faucet, j.user, j.mintA, j.mintB, cost) && j.user !in w.unsettled
    ensures !MayHold(v, j)
  {
  }

  /** Removing the file of a user that holds nothing finishes it. */
  lemma FileAfter(w: World, v: World, jobs: seq<Job>, i: nat, removed: bool)
    requires DistinctUsers(jobs) && i < |jobs| && Standing(w, jobs, |jobs|, i) && !MayHold(w, jobs[i])
             && w.unsettled == {}
    requires v == if removed then w.(files := w.files - {jobs[i].user}) else w
    ensures if removed then FinishedUpTo(v, jobs, i + 1) else Standing(v, jobs, |jobs|, i)
  {
  }

  lemma AllSavedStep(jobs: seq<Job>, i: nat)
    requires i < |jobs|
    ensures AllSaved(jobs[..i + 1]) == AllSaved(jobs[..i]) + [Deed(Save, jobs[i].user, true)]
  {
    assert jobs[..i + 1][..i] == jobs[..i];
  }

  lemma AllCompletedStep(jobs: seq<Job>, i: nat)
    requires i < |jobs|
    ensures AllCompleted(jobs[..i + 1]) == AllCompleted(jobs[..i]) + Completed(jobs[i].user)
  {
    assert jobs[..i + 1][..i] == jobs[..i];
  }

  /** The users of `jobs[..n]` have all been funded since `from`. */
  ghost predicate AllFunded(history: seq<World>, from: nat, jobs: seq<Job>, n: nat, lamports: nat) {
    n <= |jobs| && forall k :: 0 <= k < n ==> WasFunded(history, from, jobs[k].user, lamports)
  }

  lemma FundedNow(env: Env, from: nat, jobs: seq<Job>, i: nat, lamports: nat)
    requires env.Valid() && from < |env.history| && i < |jobs| && FundedUpTo(env.world, jobs, i + 1)
    requires Held(env.world, jobs[i].user).lamports == lamports
    ensures WasFunded(env.history, from, jobs[i].user, lamports)
  {
    assert env.history[|env.history| - 1] == env.world;
  }

  /** The funding loop: how far it got in `saved`, what it did after that in `tail`. */
  method FundAll(env: Env, jobs: seq<Job>, lamports: nat, ghost from: nat)
    returns (ok: bool, ghost saved: nat, ghost tail: seq<Deed>)
    requires env.Valid() && ValidJobs(jobs, env.faucet) && FundedUpTo(env.world, jobs, 0)
    requires from < |env.history| && SafeSince(env.history, from, jobs) && Safe(env.world, jobs)
    modifies env
    ensures env.Valid() && old(env.history) <= env.history
    ensures SafeSince(env.history, from, jobs) && Safe(env.world, jobs)
    ensures env.failures >= old(env.failures) && (ok <==> env.failures == old(env.failures))
    ensures saved <= |jobs| && env.deeds == old(env.deeds) + AllSaved(jobs[..saved]) + tail
    ensures Standing(env.world, jobs, saved, 0)
    ensures if ok then saved == |jobs| && tail == [] else FailedFunding(tail, jobs, saved)
    ensures ok ==> FundedUpTo(env.world, jobs, |jobs|) && AllFunded(env.history, from, jobs, |jobs|, lamports)
    ensures ok ==> env.calls == old(env.calls) + 3 * |jobs|
    ensures ok ==> Paid(old(env.world), env.world, env.faucet,
                        |jobs| * lamports + FundingFees(env.behave, old(env.calls), |jobs|))
  {
    hide SafeSince, Safe, ValidJobs, FundedUpTo, WasFunded, OnDisk, Env.Valid, Held, Paid, Standing, AllSaved,
         FundingFees;
    saved, tail := 0, [];
    PaidNothing(env.world, env.faucet, lamports, env.behave, env.calls);
    NoneSaved(jobs);
    for i := 0 to |jobs|
      invariant env.Valid() && old(env.history) <= env.history
      invariant FundedUpTo(env.world, jobs, i)
      invariant SafeSince(env.history, from, jobs) && Safe(env.world, jobs)
      invariant AllFunded(env.history, from, jobs, i, lamports) && env.failures == old(env.failures)
      invariant env.deeds == old(env.deeds) + AllSaved(jobs[..i])
      invariant env.calls == old(env.calls) + 3 * i
      invariant Paid(old(env.world), env.world, env.faucet, i * lamports + FundingFees(env.behave, old(env.calls), i))
    {
      ghost var h, w := env.history, env.world;
      var funded, stored;
      funded, stored := FundOne(env, jobs, i, lamports, from);
      AllSavedStep(jobs, i);
      Associates(old(env.deeds), AllSaved(jobs[..i]), [Deed(Save, jobs[i].user, stored)]);
      saved := if stored then i + 1 else i;
      StandsSoFar(env.world, jobs, saved);
      if !funded {
        if stored {
          ghost var stood := env.world;
          tail := ReclaimFunded(env, jobs, i, from);
          StandsByFiles(stood, env.world, jobs, saved);
        } else {
          tail := [Deed(Save, jobs[i].user, false)];
        }
        return false, saved, tail;
      }
      StaysFunded(h, env.history, from, jobs, i, lamports);
      FundedNow(env, from, jobs, i, lamports);
      PaidMore(old(env.world), w, env.world, env.faucet, i, lamports, env.behave, old(env.calls));
    }
    saved := |jobs|;
    assert jobs[..|jobs|] == jobs;
    NothingDone(env.deeds);
    AllStand(env.world, jobs);
    return true, saved, tail;
  }

  lemma NoneSaved(jobs: seq<Job>)
    ensures AllSaved(jobs[..0]) == []
  {
  }

  lemma NothingDone(deeds: seq<Deed>)
    ensures deeds + [] == deeds
  {
  }

  lemma StandsSoFar(w: World, jobs: seq<Job>, saved: nat)
    requires saved <= |jobs| && forall k :: 0 <= k < saved ==> OnDisk(w, jobs[k].user)
    ensures Standing(w, jobs, saved, 0)
  {
  }

  lemma StandsByFiles(w: World, v: World, jobs: seq<Job>, saved: nat)
    requires Standing(w, jobs, saved, 0) && v.files == w.files
    ensures Standing(v, jobs, saved, 0)
  {
  }

  lemma AllStand(w: World, jobs: seq<Job>)
    requires FundedUpTo(w, jobs, |jobs|)
    ensures Standing(w, jobs, |jobs|, 0) && FinishedUpTo(w, jobs, 0)
  {
  }

  lemma {:induction false} PaidNothing(w: World, faucet: Key, lamports: nat, behave: nat -> Behaviour, first: nat)
    ensures Paid(w, w, faucet, 0 * lamports + FundingFees(behave, first, 0))
  {
  }

  lemma PaidMore(w: World, mid: World, v: World, faucet: Key, i: nat, lamports: nat, behave: nat -> Behaviour,
                 first: nat)
    requires Paid(w, mid, faucet, i * lamports + FundingFees(behave, first, i))
    requires Paid(mid, v, faucet, lamports + behave(first + 3 * i + 2).fee)
    ensures Paid(w, v, faucet, (i + 1) * lamports + FundingFees(behave, first, i + 1))
  {
    hide Held, Tokens;
    assert (i + 1) * lamports == i * lamports + lamports;
  }

  lemma Associates(a: seq<Deed>, b: seq<Deed>, c: seq<Deed>)
    ensures (a + b) + c == a + (b + c)
  {
  }

  /** The loop over the funded users: how far it got in `finished`, what it did after that in `tail`, and
      the state `settled` after the last user that was finished. */
  method FinishAll(env: Env, jobs: seq<Job>, ghost from: nat)
    returns (ok: bool, ghost finished: nat, ghost tail: seq<Deed>, ghost rs: seq<Recovery>, ghost settled: World)
    requires env.Valid() && ValidJobs(jobs, env.faucet) && FinishedUpTo(env.world, jobs, 0)
    requires from < |env.history| && SafeSince(env.history, from, jobs) && Safe(env.world, jobs)
    modifies env
    ensures env.Valid() && old(env.history) <= env.history
    ensures SafeSince(env.history, from, jobs) && Safe(env.world, jobs)
    ensures env.failures >= old(env.failures) && (ok <==> env.failures == old(env.failures))
    ensures finished <= |jobs| && env.deeds == old(env.deeds) + AllCompleted(jobs[..finished]) + tail
    ensures if finished == |jobs| then tail == [] else FailedFlow(tail, jobs[finished].user)
    ensures finished < |jobs| && tail == [] ==> env.calls > 0 && env.behave(env.calls - 1).fails
    ensures Standing(env.world, jobs, |jobs|, finished)
    ensures |rs| == finished && Banked(old(env.world), settled, env.faucet, rs, jobs, env.behave)
    ensures InTurn(rs, old(env.calls), env.calls) && Seen(env.history, from, settled)
    ensures forall k :: 0 <= k < finished ==>
              Seen(env.history, from, rs[k].before) && Seen(env.history, from, rs[k].after)
    ensures ok ==> finished == |jobs| && tail == [] && settled == env.world && FinishedUpTo(env.world, jobs, |jobs|)
  {
    hide SafeSince, Safe, ValidJobs, FinishedUpTo, OnDisk, Completed, Env.Valid, Banked, Recovers, Seen, Standing,
         FailedFlow, Held, AllCompleted;
    finished, tail, rs, settled := 0, [], [], env.world;
    BankedNothing(env.world, env.faucet, jobs, env.behave);
    NoneCompleted(jobs);
    SeenNow(env, from);
    for i := 0 to |jobs|
      invariant env.Valid() && old(env.history) <= env.history
      invariant FinishedUpTo(env.world, jobs, i) && env.failures == old(env.failures)
      invariant SafeSince(env.history, from, jobs) && Safe(env.world, jobs)
      invariant env.deeds == old(env.deeds) + AllCompleted(jobs[..i])
      invariant |rs| == i && settled == env.world && Banked(old(env.world), settled, env.faucet, rs, jobs, env.behave)
      invariant old(env.calls) <= env.calls && InTurn(rs, old(env.calls), env.calls)
      invariant AllSeen(env.history, from, rs) && Seen(env.history, from, settled)
    {
      finished := i;
      ghost var h, c := env.history, env.calls;
      var done;
      ghost var deeds, r;
      done, deeds, r := FinishOne(env, jobs, i, from);
      SeenStill(h, env.history, from, rs, settled);
      if !done {
        InTurnLater(rs, old(env.calls), c, env.calls);
        return false, finished, deeds, rs, settled;
      }
      AllCompletedStep(jobs, i);
      Associates(old(env.deeds), AllCompleted(jobs[..i]), Completed(jobs[i].user));
      BankedOneMore(old(env.world), settled, env.world, env.faucet, rs, jobs, env.behave, r);
      InTurnOneMore(rs, old(env.calls), c, r, env.calls);
      AllSeenOneMore(env.history, from, rs, r);
      rs, settled := rs + [r], env.world;
      SeenNow(env, from);
    }
    finished := |jobs|;
    assert jobs[..|jobs|] == jobs;
    NothingDone(env.deeds);
    AllDone(env.world, jobs);
    return true, finished, tail, rs, settled;
  }

  ghost predicate AllSeen(history: seq<World>, from: nat, rs: seq<Recovery>) {
    forall k :: 0 <= k < |rs| ==> Seen(history, from, rs[k].before) && Seen(history, from, rs[k].after)
  }

  lemma AllSeenOneMore(history: seq<World>, from: nat, rs: seq<Recovery>, r: Recovery)
    requires AllSeen(history, from, rs) && Seen(history, from, r.before) && Seen(history, from, r.after)
    ensures AllSeen(history, from, rs + [r])
  {
  }

  lemma SeenLater(h: seq<World>, h': seq<World>, from: nat, w: World)
    requires h <= h' && Seen(h, from, w)
    ensures Seen(h', from, w)
  {
    var i :| from <= i < |h| && h[i] == w;
    assert h'[i] == w;
  }

  lemma SeenStill(h: seq<World>, h': seq<World>, from: nat, rs: seq<Recovery>, settled: World)
    requires h <= h' && AllSeen(h, from, rs) && Seen(h, from, settled)
    ensures AllSeen(h', from, rs) && Seen(h', from, settled)
  {
    SeenLater(h, h', from, settled);
    forall k | 0 <= k < |rs|
      ensures Seen(h', from, rs[k].before) && Seen(h', from, rs[k].after)
    {
      SeenLater(h, h', from, rs[k].before);
      SeenLater(h, h', from, rs[k].after);
    }
  }

  lemma SeenNow(env: Env, from: nat)
    requires env.Valid() && from < |env.history|
    ensures Seen(env.history, from, env.world)
  {
    assert env.history[|env.history| - 1] == env.world;
  }

  lemma NoneCompleted(jobs: seq<Job>)
    ensures AllCompleted(jobs[..0]) == []
  {
  }

  lemma AllDone(w: World, jobs: seq<Job>)
    requires FinishedUpTo(w, jobs, |jobs|)
    ensures Standing(w, jobs, |jobs|, |jobs|)
  {
  }

  lemma NothingAtRisk(env: Env, jobs: seq<Job>, from: nat)
    requires env.Valid() && env.world.unsettled == {} && from == |env.history| - 1
    requires forall k :: 0 <= k < |jobs| ==> Unknown(env.world, jobs[k].user)
    ensures FundedUpTo(env.world, jobs, 0) && Safe(env.world, jobs) && SafeSince(env.history, from, jobs)
  {
  }

  /** What a run of the command comes to: how many keys it saved, how many users it finished, what else
      it did, the state after the funding if that went through, the recoveries, and the state after the
      last finished user. */
  datatype Record = Record(saved: nat, finished: nat, rest: seq<Deed>, funded: Option<World>,
                           recoveries: seq<Recovery>, settled: World)

  /** Every key is saved in order, then users are finished one by one: flow, reclaim, removal of the file,
      each successful. What else a run does is exactly what its failure calls for. */
  predicate Ordered(deeds: seq<Deed>, jobs: seq<Job>, run: Record) {
    && run.finished <= run.saved <= |jobs| && (run.funded.Some? ==> run.saved == |jobs|)
    && (run.funded.None? ==> run.finished == 0)
    && deeds == AllSaved(jobs[..run.saved]) + AllCompleted(jobs[..run.finished]) + run.rest
    && (if run.funded.None? then FailedFunding(run.rest, jobs, run.saved)
        else if run.finished == |jobs| then run.rest == []
        else FailedFlow(run.rest, jobs[run.finished].user))
  }

  /** The faucet's books, to the lamport: it paid the funding and the fees of those transfers, and then
      got back what the recoveries brought, less what exactly their calls cost. */
  ghost predicate Accounted(w: World, faucet: Key, behave: nat -> Behaviour, first: nat, jobs: seq<Job>, lamports: nat,
                            run: Record)
    requires run.funded.Some?
  {
    && Paid(w, run.funded.value, faucet, |jobs| * lamports + FundingFees(behave, first, |jobs|))
    && Banked(run.funded.value, run.settled, faucet, run.recoveries, jobs, behave)
  }

  /** The states and calls of the record are states and calls of the run. */
  ghost predicate Recorded(history: seq<World>, from: nat, first: nat, last: nat, run: Record) {
    && Seen(history, from, run.settled) && (run.funded.Some? ==> Seen(history, from, run.funded.value))
    && AllSeen(history, from, run.recoveries)
    && InTurn(run.recoveries, first, last)
  }

  /** The command: every user's key is saved before it is funded, and at every step of the run, under
      failure of any call, whoever may hold lamports or tokens of its pool has its file on disk. A file
      is removed only after flow and reclaim have succeeded; every other saved file is still there at the
      end, and the faucet's books balance. A run that succeeds, and that is one in which no call fails,
      has removed every file, and no user holds any of it. */
  method ExecuteUserFlows(env: Env, jobs: seq<Job>, lamports: nat) returns (ok: bool, ghost run: Record)
    requires env.Valid() && ValidJobs(jobs, env.faucet) && env.world.unsettled == {}
    requires forall k :: 0 <= k < |jobs| ==> Unknown(env.world, jobs[k].user)
    modifies env
    ensures env.Valid() && old(env.history) <= env.history
    ensures SafeSince(env.history, |old(env.history)| - 1, jobs) && Safe(env.world, jobs)
    ensures env.failures >= old(env.failures) && (ok <==> env.failures == old(env.failures))
    // every run, failed or not
    ensures old(env.deeds) <= env.deeds && Ordered(env.deeds[|old(env.deeds)|..], jobs, run)
    ensures Standing(env.world, jobs, run.saved, run.finished) && |run.recoveries| == run.finished
    ensures Recorded(env.history, |old(env.history)| - 1, old(env.calls), env.calls, run)
    // a user whose flow is not even started is one before whose flow a call failed
    ensures run.funded.Some? && run.finished < |jobs| && run.rest == [] ==>
              env.calls > 0 && env.behave(env.calls - 1).fails
    ensures run.funded.Some? ==> Accounted(old(env.world), env.faucet, env.behave, old(env.calls), jobs, lamports, run)
    // a run that succeeds
    ensures ok ==> run.saved == run.finished == |jobs| && run.rest == [] && run.funded.Some? && run.settled == env.world
    ensures ok ==> FinishedUpTo(env.world, jobs, |jobs|)
    ensures ok ==> AllFunded(env.history, |old(env.history)| - 1, jobs, |jobs|, lamports)
  {
    hide SafeSince, Safe, Standing, Banked, Paid, AllSeen, Seen, InTurn, FailedFunding, FailedFlow, AllCompleted,
      AllSaved, FinishedUpTo,
         AllFunded, ValidJobs, FundingFees;
    ghost var from, w, d, c := |env.history| - 1, env.world, env.deeds, env.calls;
    NothingAtRisk(env, jobs, from);
    SeenNow(env, from);
    ghost var h0 := env.history;
    var funded;
    ghost var saved, rest;
    funded, saved, rest := FundAll(env, jobs, lamports, from);
    NoneCompleted(jobs);
    NothingSeen(env.history, from, c, env.calls);
    SeenLater(h0, env.history, from, w);
    run := Record(saved, 0, rest, None, [], w);
    if !funded {
      Deeds(d, env.deeds, AllSaved(jobs[..saved]), [], rest);
      return false, run;
    }
    AllStand(env.world, jobs);
    SeenNow(env, from);
    ghost var h, v, c1 := env.history, env.world, env.calls;
    ghost var finished, tail, rs, settled;
    ok, finished, tail, rs, settled := FinishAll(env, jobs, from);
    run := Record(saved, finished, tail, Some(v), rs, settled);
    Deeds(d, env.deeds, AllSaved(jobs[..saved]), AllCompleted(jobs[..finished]), tail);
    StillFunded(h, env.history, from, jobs, lamports);
    SeenLater(h, env.history, from, v);
    SeenAre(env.history, from, rs);
    InTurnFrom(rs, c, c1, env.calls);
  }

  lemma InTurnFrom(rs: seq<Recovery>, first: nat, from: nat, to: nat)
    requires InTurn(rs, from, to) && first <= from
    ensures InTurn(rs, first, to)
  {
  }

  lemma NothingSeen(history: seq<World>, from: nat, first: nat, last: nat)
    ensures AllSeen(history, from, []) && InTurn([], first, last)
  {
  }

  lemma SeenAre(history: seq<World>, from: nat, rs: seq<Recovery>)
    requires forall k :: 0 <= k < |rs| ==> Seen(history, from, rs[k].before) && Seen(history, from, rs[k].after)
    ensures AllSeen(history, from, rs)
  {
  }

  lemma Deeds(d: seq<Deed>, all: seq<Deed>, a: seq<Deed>, b: seq<Deed>, c: seq<Deed>)
    requires all == d + a + b + c
    ensures d <= all && all[|d|..] == a + b + c
  {
  }

  lemma StillFunded(h: seq<World>, h': seq<World>, from: nat, jobs: seq<Job>, lamports: nat)
    requires h <= h' && AllFunded(h, from, jobs, |jobs|, lamports)
    ensures AllFunded(h', from, jobs, |jobs|, lamports)
  {
    StaysFunded(h, h', from, jobs, |jobs|, lamports);
  }
}
