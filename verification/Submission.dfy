/** `ChainClient::submit` against an adversarial RPC node and a ledger that executes a signature once. */
module Submission {
  import opened Wrappers

  type Signature = int
  type Hash = int
  type Key = int

  datatype Instruction = SetComputeUnitLimit(units: nat) | SetComputeUnitPrice(price: nat) | Other(id: int)

  /** The signed bytes. */
  datatype Tx = Tx(signature: Signature, instructions: seq<Instruction>, signers: seq<Key>, blockhash: Hash)

  datatype Landing = Landing(slot: nat, error: Option<string>)

  // ---------------------------------------------------------------- the ledger

  /** What validators know: the transactions that reached them, the result of each executed signature,
      and every execution in order. */
  datatype Chain = Chain(inFlight: set<Tx>, ledger: map<Signature, Landing>, executed: seq<Tx>)

  datatype Arrival = Arrival(tx: Tx, landing: Landing)

  /** A transaction executes if it reached a validator and its signature has not been executed. */
  function Land(c: Chain, a: Arrival): Chain {
    if a.tx in c.inFlight && a.tx.signature !in c.ledger
    then c.(ledger := c.ledger[a.tx.signature := a.landing], executed := c.executed + [a.tx])
    else c
  }

  function LandAll(c: Chain, arrivals: seq<Arrival>): Chain {
    if arrivals == [] then c else Land(LandAll(c, arrivals[..|arrivals| - 1]), arrivals[|arrivals| - 1])
  }

  /** No signature has been executed twice, and every execution is on the ledger. */
  predicate ValidChain(c: Chain) {
    && (forall i, j :: 0 <= i < j < |c.executed| ==> c.executed[i].signature != c.executed[j].signature)
    && (forall i :: 0 <= i < |c.executed| ==> c.executed[i].signature in c.ledger)
  }

  /** The ledger only grows: what was executed stays as it is, and what is new had reached a validator
      and was not on the ledger before. */
  predicate Grows(c: Chain, d: Chain) {
    && d.inFlight >= c.inFlight
    && c.executed <= d.executed
    && (forall s :: s in c.ledger ==> s in d.ledger && d.ledger[s] == c.ledger[s])
    && (forall i :: |c.executed| <= i < |d.executed| ==>
          d.executed[i] in d.inFlight && d.executed[i].signature !in c.ledger)
  }

  lemma GrowsTransitive(a: Chain, b: Chain, c: Chain)
    requires Grows(a, b) && Grows(b, c)
    ensures Grows(a, c)
  {
    forall i | |a.executed| <= i < |c.executed|
      ensures c.executed[i] in c.inFlight && c.executed[i].signature !in a.ledger
    {
      if i < |b.executed| { assert c.executed[i] == b.executed[i]; }
    }
  }

  /** Whatever arrives, in whatever order and however often, nothing executes twice. */
  lemma {:induction false} LandingIsOnce(c: Chain, arrivals: seq<Arrival>)
    requires ValidChain(c)
    ensures var d := LandAll(c, arrivals);
            ValidChain(d) && Grows(c, d) && d.inFlight == c.inFlight
    decreases |arrivals|
  {
    if arrivals != [] {
      LandingIsOnce(c, arrivals[..|arrivals| - 1]);
    }
  }

  /** Exactly what is on the ledger afterwards: what was, and what reached a validator and arrived. */
  lemma {:induction false} LandsWhen(c: Chain, arrivals: seq<Arrival>, s: Signature)
    ensures s in LandAll(c, arrivals).ledger <==>
              s in c.ledger || exists i :: 0 <= i < |arrivals| && Carries(arrivals[i], c, s)
    decreases |arrivals|
  {
    if arrivals != [] {
      var front, n := arrivals[..|arrivals| - 1], |arrivals| - 1;
      LandsWhen(c, front, s);
      LandKeepsInFlight(c, front);
      assert forall i :: 0 <= i < n ==> arrivals[i] == front[i];
      assert s in LandAll(c, arrivals).ledger <==> s in LandAll(c, front).ledger || Carries(arrivals[n], c, s);
    }
  }

  predicate Carries(a: Arrival, c: Chain, s: Signature) { a.tx.signature == s && a.tx in c.inFlight }

  lemma {:induction false} LandKeepsInFlight(c: Chain, arrivals: seq<Arrival>)
    ensures LandAll(c, arrivals).inFlight == c.inFlight
    decreases |arrivals|
  {
    if arrivals != [] { LandKeepsInFlight(c, arrivals[..|arrivals| - 1]); }
  }

  function Executions(executed: seq<Tx>, s: Signature): nat {
    if executed == [] then 0
    else Executions(executed[..|executed| - 1], s) + (if executed[|executed| - 1].signature == s then 1 else 0)
  }

  /** On a valid chain each signature has been executed at most once. */
  lemma {:induction false} AtMostOnce(executed: seq<Tx>, s: Signature)
    requires forall i, j :: 0 <= i < j < |executed| ==> executed[i].signature != executed[j].signature
    ensures Executions(executed, s) <= 1
    ensures (forall i :: 0 <= i < |executed| ==> executed[i].signature != s) ==> Executions(executed, s) == 0
    decreases |executed|
  {
    if executed != [] {
      AtMostOnce(executed[..|executed| - 1], s);
    }
  }

  // ---------------------------------------------------------------- the RPC node

  datatype SendReply = Accepted(signature: Signature) | TransportError | Rejected(message: string)

  datatype Simulation = Simulation(units: Option<nat>, error: Option<string>)

  /** What the network does around one call: what it answers, whether the sent bytes get through,
      which transactions land meanwhile, and how long it takes. Any behaviour is allowed; only a
      reported status is the ledger's. */
  datatype Behaviour = Behaviour(
    blockhash: Option<(Hash, nat)>,
    simulation: Option<Simulation>,
    send: SendReply,
    delivered: bool,
    statusFails: bool,
    statusVisible: bool,
    satisfied: bool,
    height: Option<nat>,
    arrivals: seq<Arrival>,
    elapsed: nat)

  datatype Status = Status(landing: Landing, satisfied: bool)

  /** How the ledger and the clock stand when a call returns. */
  datatype Moment = Moment(ledger: map<Signature, Landing>, clock: nat)

  class Rpc {
    const behave: nat -> Behaviour
    var calls: nat
    var chain: Chain
    var sent: seq<Tx>
    var clock: nat
    ghost var moments: seq<Moment>

    ghost predicate Valid()
      reads this
    {
      && ValidChain(chain)
      && |moments| == calls && (calls > 0 ==> moments[calls - 1].clock == clock)
    }

    constructor (behave: nat -> Behaviour, chain: Chain)
      requires ValidChain(chain)
      ensures Valid() && this.chain == chain && sent == [] && calls == 0 && this.behave == behave
    {
      this.behave, this.chain := behave, chain;
      calls, sent, clock, moments := 0, [], 0, [];
    }

    /** Time passes and transactions land. */
    method Pass(atLeast: nat) returns (b: Behaviour)
      requires Valid()
      modifies this
      ensures b == behave(old(calls)) && calls == old(calls) + 1
      ensures Valid() && sent == old(sent) && clock >= old(clock) + atLeast
      ensures Grows(old(chain), chain) && chain.inFlight == old(chain.inFlight)
      ensures moments == old(moments) + [Moment(chain.ledger, clock)]
    {
      b := behave(calls);
      calls := calls + 1;
      clock := clock + atLeast + b.elapsed;
      LandingIsOnce(chain, b.arrivals);
      chain := LandAll(chain, b.arrivals);
      moments := moments + [Moment(chain.ledger, clock)];
    }

    method Send(tx: Tx) returns (reply: SendReply)
      requires Valid()
      modifies this
      ensures reply == behave(old(calls)).send && calls == old(calls) + 1
      ensures Valid() && sent == old(sent) + [tx] && clock >= old(clock)
      ensures Grows(old(chain), chain) && chain.inFlight <= old(chain.inFlight) + {tx}
      ensures moments == old(moments) + [Moment(chain.ledger, clock)]
    {
      sent := sent + [tx];
      ghost var before := chain;
      var got := behave(calls).delivered;
      if got {
        chain := chain.(inFlight := chain.inFlight + {tx});
      }
      assert Grows(before, chain);
      ghost var mid := chain;
      var b := Pass(0);
      GrowsTransitive(before, mid, chain);
      reply := b.send;
    }

    /** `get_signature_statuses`: fails, or reports nothing, or reports the ledger's result. */
    method SignatureStatus(s: Signature) returns (r: Option<Option<Status>>)
      requires Valid()
      modifies this
      ensures Valid() && sent == old(sent) && clock >= old(clock)
      ensures Grows(old(chain), chain) && chain.inFlight == old(chain.inFlight)
      ensures calls == old(calls) + 1 && moments == old(moments) + [Moment(chain.ledger, clock)]
      ensures r.None? <==> behave(old(calls)).statusFails
      ensures r.Some? ==> (r.value.Some? <==> behave(old(calls)).statusVisible && s in chain.ledger)
      ensures r.Some? && r.value.Some? ==> r.value.value == Status(chain.ledger[s], behave(old(calls)).satisfied)
    {
      var b := Pass(0);
      if b.statusFails {
        return None;
      }
      if b.statusVisible && s in chain.ledger {
        return Some(Some(Status(chain.ledger[s], b.satisfied)));
      }
      return Some(None);
    }
  }

  // ---------------------------------------------------------------- the client

  datatype Config = Config(
    computeUnitLimit: nat,
    computeUnitPrice: nat,
    maxSendAttempts: nat,
    confirmationTimeout: nat,
    pollInterval: nat)

  datatype Outcome = Outcome(signature: Signature, slot: nat, simulatedUnits: nat)

  datatype AmbiguousReason =
    DifferentSignature | StatusUnavailable | HeightUnavailable | BlockhashExpired | DeadlineElapsed

  datatype SubmissionError =
    | Blockhash
    | Signing
    | SimulationRpc
    | SimulationFailed(error: string)
    | SubmissionRejected(error: string)
    | Execution(signature: Signature, slot: nat, error: string)
    | AmbiguousConfirmation(signature: Signature, reason: AmbiguousReason)

  /** The errors that promise nothing was sent. */
  predicate BeforeSending(e: SubmissionError) {
    e.Blockhash? || e.Signing? || e.SimulationRpc? || e.SimulationFailed?
  }

  predicate Early(r: Result<Outcome, SubmissionError>) { r.Failure? && BeforeSending(r.error) }

  /** `payer` first, then each additional signer that is not there yet. */
  function Collected(payer: Key, additional: seq<Key>): seq<Key> {
    if additional == [] then [payer]
    else
      var front, last := Collected(payer, additional[..|additional| - 1]), additional[|additional| - 1];
      if last in front then front else front + [last]
  }

  /** Everyone asked to sign does so once, and the payer first. */
  lemma {:induction false} CollectedOnce(payer: Key, additional: seq<Key>)
    ensures var signers := Collected(payer, additional);
            && signers != [] && signers[0] == payer
            && (forall i, j :: 0 <= i < j < |signers| ==> signers[i] != signers[j])
            && forall k :: k in signers <==> k == payer || k in additional
    decreases |additional|
  {
    if additional != [] {
      var front, last := additional[..|additional| - 1], additional[|additional| - 1];
      CollectedOnce(payer, front);
      assert additional == front + [last];
    }
  }

  method CollectSigners(payer: Key, additional: seq<Key>) returns (signers: seq<Key>)
    ensures signers == Collected(payer, additional)
    ensures signers != [] && signers[0] == payer
    ensures forall i, j :: 0 <= i < j < |signers| ==> signers[i] != signers[j]
    ensures forall k :: k in signers <==> k == payer || k in additional
  {
    signers := [payer];
    for n := 0 to |additional|
      invariant signers == Collected(payer, additional[..n])
    {
      var signer := additional[n];
      CollectedOnce(payer, additional[..n]);
      assert additional[..n + 1][..n] == additional[..n];
      if signer != payer && signer !in signers {
        signers := signers + [signer];
      }
    }
    assert additional[..|additional|] == additional;
    CollectedOnce(payer, additional);
  }

  function Repeat(tx: Tx, n: nat): (s: seq<Tx>)
    ensures |s| == n && forall i :: 0 <= i < n ==> s[i] == tx
  {
    seq(n, i => tx)
  }

  function Attempts(config: Config): (n: nat)
    ensures n >= 1 && n >= config.maxSendAttempts && (n == 1 || n == config.maxSendAttempts)
  {
    if config.maxSendAttempts < 1 then 1 else config.maxSendAttempts
  }

  datatype SendEnd = Sent | NotSent(error: SubmissionError)

  /** What all of the client's calls keep: the ledger grew, and only `tx` was sent, `n` times. */
  twostate predicate OnlySent(rpc: Rpc, tx: Tx, n: nat)
    reads rpc
  {
    && rpc.Valid()
    && Grows(old(rpc.chain), rpc.chain)
    && rpc.sent == old(rpc.sent) + Repeat(tx, n)
    && rpc.chain.inFlight <= old(rpc.chain.inFlight) + {tx}
    && (n == 0 ==> rpc.chain.inFlight == old(rpc.chain.inFlight))
    && rpc.clock >= old(rpc.clock)
    && old(rpc.moments) <= rpc.moments
  }

  /** The reply to attempt `i` of a send loop that began at call `first`: each failed attempt is one
      call, and the pause after it another. */
  function SendReplyAt(rpc: Rpc, first: nat, i: nat): SendReply { rpc.behave(first + 2 * i).send }

  /** The pauses after `n` attempts: attempt `i` is followed by one of 200 * i milliseconds. */
  function Paused(n: nat): nat { if n == 0 then 0 else Paused(n - 1) + 200 * n }

  lemma {:induction false} PausedIs(n: nat)
    ensures Paused(n) == 100 * n * (n + 1)
  {
    if n > 0 { PausedIs(n - 1); }
  }

  /** The bounded send loop: the same signed bytes each time. */
  method SendLoop(rpc: Rpc, tx: Tx, config: Config) returns (end: SendEnd, ghost n: nat)
    requires rpc.Valid()
    modifies rpc
    ensures 1 <= n <= Attempts(config) && OnlySent(rpc, tx, n)
    ensures rpc.calls == old(rpc.calls) + 2 * n - 1 && rpc.clock >= old(rpc.clock) + Paused(n - 1)
    // every reply but the last was a transport error, and the last one decides
    ensures forall i :: 0 <= i < n - 1 ==> SendReplyAt(rpc, old(rpc.calls), i).TransportError?
    ensures match SendReplyAt(rpc, old(rpc.calls), n - 1)
            case Accepted(s) =>
              end == if s == tx.signature then Sent
                else NotSent(AmbiguousConfirmation(tx.signature, DifferentSignature))
            case TransportError => end == Sent && n == Attempts(config)
            case Rejected(message) => end == NotSent(SubmissionRejected(message))
  {
    hide ValidChain, Attempts;
    var attempts := Attempts(config);
    n := 0;
    assert Repeat(tx, 0) == [];
    for attempt := 1 to attempts + 1
      invariant n == attempt - 1 && OnlySent(rpc, tx, n) && (attempt == 1 || n < attempts)
      invariant rpc.calls == old(rpc.calls) + 2 * n && rpc.clock >= old(rpc.clock) + Paused(n)
      invariant forall i :: 0 <= i < n ==> SendReplyAt(rpc, old(rpc.calls), i).TransportError?
    {
      ghost var before := rpc.chain;
      var reply := rpc.Send(tx);
      assert reply == SendReplyAt(rpc, old(rpc.calls), n);
      GrowsTransitive(old(rpc.chain), before, rpc.chain);
      assert Repeat(tx, n + 1) == Repeat(tx, n) + [tx];
      n := n + 1;
      match reply {
        case Accepted(s) =>
          if s != tx.signature {
            return NotSent(AmbiguousConfirmation(tx.signature, DifferentSignature)), n;
          }
          return Sent, n;
        case TransportError =>
          if attempt == attempts {
            return Sent, n;
          }
          before := rpc.chain;
          var _ := rpc.Pass(200 * attempt);
          GrowsTransitive(old(rpc.chain), before, rpc.chain);
        case Rejected(message) =>
          return NotSent(SubmissionRejected(message)), n;
      }
    }
    assert false;
  }

  // ---------------------------------------------------------------- confirmation

  /** Everything the confirmation of `s` depends on. */
  datatype Watch = Watch(
    behave: nat -> Behaviour,
    moments: seq<Moment>,
    s: Signature,
    units: nat,
    lastValid: nat,
    started: int,
    config: Config)

  /** The status call `c` reports the transaction: it is on the ledger and the node shows it. */
  predicate Seen(w: Watch, c: nat)
    requires c < |w.moments|
  {
    !w.behave(c).statusFails && w.behave(c).statusVisible && w.s in w.moments[c].ledger
  }

  /** The block height asked for by call `c` is known and the blockhash still valid. */
  predicate StillValid(w: Watch, c: nat) {
    w.behave(c).height.Some? && w.behave(c).height.value <= w.lastValid
  }

  /** By the time call `c` returned the confirmation had taken as long as it may. */
  predicate TimedOut(w: Watch, c: nat)
    requires c < |w.moments|
  {
    w.moments[c].clock - w.started >= w.config.confirmationTimeout
  }

  /** The status call `c` of a pass decides nothing: it was answered, and the transaction was not
      reported, or reported without an error but below the asked commitment. */
  predicate Open(w: Watch, c: nat)
    requires c < |w.moments|
  {
    && !w.behave(c).statusFails
    && (Seen(w, c) ==> w.moments[c].ledger[w.s].error.None? && !w.behave(c).satisfied)
  }

  /** The pass that began at call `c` ends without an answer. */
  predicate Undecided(w: Watch, c: nat) {
    c + 1 < |w.moments| && Open(w, c) && StillValid(w, c + 1) && !TimedOut(w, c + 1)
  }

  /** The pass that began at call `c` ends with exactly `r`. */
  predicate Ends(w: Watch, c: nat, r: Result<Outcome, SubmissionError>) {
    c < |w.moments|
    && match r
       case Success(o) =>
         Seen(w, c) && w.moments[c].ledger[w.s] == Landing(o.slot, None) && w.behave(c).satisfied
         && o.signature == w.s && o.simulatedUnits == w.units
       case Failure(Execution(s, slot, error)) =>
         s == w.s && Seen(w, c) && w.moments[c].ledger[s] == Landing(slot, Some(error))
       case Failure(AmbiguousConfirmation(s, reason)) =>
         s == w.s
         && (match reason
             case StatusUnavailable => w.behave(c).statusFails
             case HeightUnavailable => Open(w, c) && w.behave(c + 1).height.None?
             case BlockhashExpired =>
               Open(w, c) && w.behave(c + 1).height.Some? && w.behave(c + 1).height.value > w.lastValid
             case DeadlineElapsed =>
               Open(w, c) && StillValid(w, c + 1) && c + 1 < |w.moments| && TimedOut(w, c + 1)
             case DifferentSignature => false)
       case Failure(_) => false
  }

  /** Pass `k` asks for the status, then for the block height, then sleeps: three calls. */
  function StatusCall(first: nat, k: nat): nat { first + 3 * k }

  /** The first `passes` passes, from call `first` on, all end without an answer. */
  predicate AllUndecided(w: Watch, first: nat, passes: nat) {
    forall k :: 0 <= k < passes ==> Undecided(w, StatusCall(first, k))
  }

  /** All passes but the last end without an answer, and the last one gives `r`. */
  predicate Confirms(w: Watch, first: nat, passes: nat, r: Result<Outcome, SubmissionError>) {
    passes >= 1 && AllUndecided(w, first, passes - 1) && Ends(w, StatusCall(first, passes - 1), r)
  }

  /** What a pass did is settled; later calls do not change it. */
  lemma StaysUndecided(w: Watch, w': Watch, first: nat, passes: nat)
    requires AllUndecided(w, first, passes) && w.moments <= w'.moments && w' == w.(moments := w'.moments)
    ensures AllUndecided(w', first, passes)
  {
    forall k | 0 <= k < passes
      ensures Undecided(w', StatusCall(first, k))
    {
      assert Undecided(w, StatusCall(first, k));
    }
  }

  lemma OneMoreUndecided(w: Watch, first: nat, passes: nat)
    requires AllUndecided(w, first, passes) && Undecided(w, StatusCall(first, passes))
    ensures AllUndecided(w, first, passes + 1)
  {
    hide Undecided;
  }

  /** A pass that gives an answer gives only that one, and it is not one that ends without. */
  lemma EndsOnce(w: Watch, c: nat, r: Result<Outcome, SubmissionError>, r': Result<Outcome, SubmissionError>)
    requires Ends(w, c, r)
    ensures !Undecided(w, c)
    ensures Ends(w, c, r') ==> r == r'
  {
  }

  /** So behaviours, ledgers and clock determine the answer, and after how many passes it is given. */
  lemma AnswerIsDetermined(w: Watch, first: nat, passes: nat, passes': nat, r: Result<Outcome, SubmissionError>,
                           r': Result<Outcome, SubmissionError>)
    requires Confirms(w, first, passes, r) && Confirms(w, first, passes', r')
    ensures passes == passes' && r == r'
  {
    hide Ends, Undecided;
    EndsOnce(w, StatusCall(first, passes - 1), r, r');
    EndsOnce(w, StatusCall(first, passes' - 1), r', r);
  }

  /** Ok and Execution are given exactly when the last status is reported with the asked commitment, or
      with an error; and no earlier status was reported that way. */
  lemma DecidedExactlyWhen(w: Watch, first: nat, passes: nat, r: Result<Outcome, SubmissionError>)
    requires Confirms(w, first, passes, r)
    ensures var c := StatusCall(first, passes - 1);
            && c < |w.moments|
            && (r.Success? <==> Seen(w, c) && w.moments[c].ledger[w.s].error.None? && w.behave(c).satisfied)
            && (r.Failure? && r.error.Execution? <==> Seen(w, c) && w.moments[c].ledger[w.s].error.Some?)
    ensures forall k :: 0 <= k < passes - 1 ==> StatusCall(first, k) < |w.moments| && Open(w, StatusCall(first, k))
  {
    forall k | 0 <= k < passes - 1
      ensures StatusCall(first, k) < |w.moments| && Open(w, StatusCall(first, k))
    {
      assert Undecided(w, StatusCall(first, k));
    }
  }

  /** At most one pass starts after the deadline. */
  predicate PassBound(passes: nat, config: Config) {
    passes >= 2 ==> (passes - 2) * config.pollInterval < config.confirmationTimeout
  }

  ghost function WatchOf(rpc: Rpc, s: Signature, units: nat, lastValid: nat, started: int, config: Config): Watch
    reads rpc
  {
    Watch(rpc.behave, rpc.moments, s, units, lastValid, started, config)
  }

  /** What Ok and Execution mean on the ledger. */
  predicate Confirmed(ledger: map<Signature, Landing>, s: Signature, r: Result<Outcome, SubmissionError>) {
    match r
    case Success(o) => o.signature == s && s in ledger && ledger[s] == Landing(o.slot, None)
    case Failure(Execution(sig, slot, error)) => sig == s && s in ledger && ledger[s] == Landing(slot, Some(error))
    case Failure(_) => true
  }

  /** One pass of the polling loop, up to its sleep. */
  method PollOnce(rpc: Rpc, tx: Tx, lastValid: nat, units: nat, config: Config, started: nat)
    returns (r: Option<Result<Outcome, SubmissionError>>)
    requires rpc.Valid()
    modifies rpc
    ensures OnlySent(rpc, tx, 0) && old(rpc.calls) + 1 <= rpc.calls <= old(rpc.calls) + 2
    ensures var w := WatchOf(rpc, tx.signature, units, lastValid, started, config);
            match r
            case None => rpc.calls == old(rpc.calls) + 2 && Undecided(w, old(rpc.calls))
            case Some(end) =>
              Ends(w, old(rpc.calls), end) && Confirmed(rpc.chain.ledger, tx.signature, end) && !Early(end)
    ensures r.None? ==> rpc.clock - started < config.confirmationTimeout
  {
    var s := tx.signature;
    assert Repeat(tx, 0) == [];
    var response := rpc.SignatureStatus(s);
    if response.None? {
      return Some(Failure(AmbiguousConfirmation(s, StatusUnavailable)));
    }
    if response.value.Some? {
      var status := response.value.value;
      if status.landing.error.Some? {
        return Some(Failure(Execution(s, status.landing.slot, status.landing.error.value)));
      }
      if status.satisfied {
        return Some(Success(Outcome(s, status.landing.slot, units)));
      }
    }
    ghost var before := rpc.chain;
    var b := rpc.Pass(0);
    GrowsTransitive(old(rpc.chain), before, rpc.chain);
    if b.height.None? {
      return Some(Failure(AmbiguousConfirmation(s, HeightUnavailable)));
    }
    if b.height.value > lastValid {
      return Some(Failure(AmbiguousConfirmation(s, BlockhashExpired)));
    }
    if rpc.clock - started >= config.confirmationTimeout {
      return Some(Failure(AmbiguousConfirmation(s, DeadlineElapsed)));
    }
    return None;
  }

  /** The polling loop. It ends in exactly one of Ok, Execution and AmbiguousConfirmation. */
  method ConfirmLoop(rpc: Rpc, tx: Tx, lastValid: nat, units: nat, config: Config)
    returns (r: Result<Outcome, SubmissionError>, ghost passes: nat)
    requires rpc.Valid() && config.pollInterval > 0
    modifies rpc
    ensures OnlySent(rpc, tx, 0)
    ensures Confirms(WatchOf(rpc, tx.signature, units, lastValid, old(rpc.clock), config), old(rpc.calls), passes, r)
    ensures Confirmed(rpc.chain.ledger, tx.signature, r) && !Early(r)
    // a pass asks for the status, then for the block height, then sleeps
    ensures 3 * passes - 2 <= rpc.calls - old(rpc.calls) <= 3 * passes - 1
    ensures PassBound(passes, config)
  {
    hide Undecided, Ends, Confirmed, AllUndecided, Grows;
    var started := rpc.clock;
    passes := 0;
    ghost var waited: nat := 0;
    NoPassYet(WatchOf(rpc, tx.signature, units, lastValid, started, config), rpc, tx);
    while true
      invariant OnlySent(rpc, tx, 0)
      invariant rpc.calls == StatusCall(old(rpc.calls), passes)
      invariant AllUndecided(WatchOf(rpc, tx.signature, units, lastValid, started, config), old(rpc.calls), passes)
      invariant started == old(rpc.clock) && waited <= rpc.clock - started
      invariant waited == passes * config.pollInterval && PassBound(passes + 1, config)
      invariant waited < config.confirmationTimeout + config.pollInterval
      decreases config.confirmationTimeout + config.pollInterval - waited
    {
      OneMorePass(passes, config.pollInterval);
      ghost var before, w0 := rpc.chain, WatchOf(rpc, tx.signature, units, lastValid, started, config);
      var end := PollOnce(rpc, tx, lastValid, units, config, started);
      GrowsTransitive(old(rpc.chain), before, rpc.chain);
      ghost var w1 := WatchOf(rpc, tx.signature, units, lastValid, started, config);
      StaysUndecided(w0, w1, old(rpc.calls), passes);
      passes := passes + 1;
      if end.Some? {
        return end.value, passes;
      }
      OneMoreUndecided(w1, old(rpc.calls), passes - 1);
      before := rpc.chain;
      var _ := rpc.Pass(config.pollInterval);
      GrowsTransitive(old(rpc.chain), before, rpc.chain);
      StaysUndecided(w1, WatchOf(rpc, tx.signature, units, lastValid, started, config), old(rpc.calls), passes);
      waited := waited + config.pollInterval;
    }
  }

  lemma NoPassYet(w: Watch, rpc: Rpc, tx: Tx)
    ensures AllUndecided(w, rpc.calls, 0) && Repeat(tx, 0) == [] && Grows(rpc.chain, rpc.chain)
  {
  }

  lemma OneMorePass(passes: nat, d: nat)
    ensures (passes + 1) * d == passes * d + d
  {
  }

  /** Nothing was sent; only time passed. */
  twostate predicate Quiet(rpc: Rpc)
    reads rpc
  {
    && rpc.Valid()
    && Grows(old(rpc.chain), rpc.chain)
    && rpc.sent == old(rpc.sent)
    && rpc.chain.inFlight == old(rpc.chain.inFlight)
    && rpc.clock >= old(rpc.clock)
    && old(rpc.moments) <= rpc.moments
  }

  datatype Prepared = Prepared(tx: Tx, lastValid: nat, units: nat)

  /** The instructions with the compute budget in front. */
  function Budgeted(instructions: seq<Instruction>, config: Config): seq<Instruction> {
    [SetComputeUnitLimit(config.computeUnitLimit), SetComputeUnitPrice(config.computeUnitPrice)] + instructions
  }

  /** What is to be submitted, and with whose keys. */
  datatype Order = Order(
    instructions: seq<Instruction>,
    payer: Key,
    additional: seq<Key>,
    sign: (seq<Instruction>, seq<Key>, Hash) -> Option<Signature>)

  /** The keys' signature over these bytes. */
  function SignatureOf(o: Order, config: Config, blockhash: Hash): Option<Signature> {
    o.sign(Budgeted(o.instructions, config), Collected(o.payer, o.additional), blockhash)
  }

  /** The transaction is what was asked for, signed over those bytes and the blockhash of the first reply,
      with the last valid height of that reply and the units of the second. */
  predicate PreparedFrom(p: Prepared, o: Order, config: Config, first: Behaviour, second: Behaviour) {
    && first.blockhash == Some((p.tx.blockhash, p.lastValid))
    && p.tx.instructions == Budgeted(o.instructions, config) && p.tx.signers == Collected(o.payer, o.additional)
    && SignatureOf(o, config, p.tx.blockhash) == Some(p.tx.signature)
    && second.simulation.Some? && second.simulation.value.error.None?
    && p.units == if second.simulation.value.units.Some? then second.simulation.value.units.value else 0
  }

  /** Exactly why a submission ends before anything is sent; `first` and `second` are its first two calls. */
  predicate StoppedBy(e: SubmissionError, o: Order, config: Config, first: Behaviour, second: Behaviour) {
    match e
    case Blockhash => first.blockhash.None?
    case Signing => first.blockhash.Some? && SignatureOf(o, config, first.blockhash.value.0).None?
    case SimulationRpc =>
      && first.blockhash.Some? && SignatureOf(o, config, first.blockhash.value.0).Some?
      && second.simulation.None?
    case SimulationFailed(error) =>
      && first.blockhash.Some? && SignatureOf(o, config, first.blockhash.value.0).Some?
      && second.simulation.Some? && second.simulation.value.error == Some(error)
    case _ => false
  }

  /** The two replies determine how the preparation ends. */
  lemma PreparationIsDetermined(o: Order, config: Config, first: Behaviour, second: Behaviour, p: Prepared,
                                e: SubmissionError)
    ensures !(PreparedFrom(p, o, config, first, second) && StoppedBy(e, o, config, first, second))
    ensures forall p' ::
              PreparedFrom(p, o, config, first, second) && PreparedFrom(p', o, config, first, second) ==> p == p'
    ensures forall e' ::
              StoppedBy(e, o, config, first, second) && StoppedBy(e', o, config, first, second) ==> e == e'
  {
  }

  /** Build once, sign once, simulate. `sign` stands for the signers' keys. */
  method Prepare(rpc: Rpc, o: Order, config: Config) returns (r: Result<Prepared, SubmissionError>)
    requires rpc.Valid()
    modifies rpc
    ensures Quiet(rpc)
    ensures rpc.calls == old(rpc.calls) + (if r.Failure? && (r.error.Blockhash? || r.error.Signing?) then 1 else 2)
    ensures var first, second := rpc.behave(old(rpc.calls)), rpc.behave(old(rpc.calls) + 1);
            match r
            case Success(p) => PreparedFrom(p, o, config, first, second)
            case Failure(e) => StoppedBy(e, o, config, first, second) && BeforeSending(e)
  {
    var budget := [SetComputeUnitLimit(config.computeUnitLimit), SetComputeUnitPrice(config.computeUnitPrice)];
    budget := budget + o.instructions;
    var b := rpc.Pass(0);
    if b.blockhash.None? {
      return Failure(Blockhash);
    }
    var (blockhash, lastValid) := b.blockhash.value;
    var signers := CollectSigners(o.payer, o.additional);
    var signature := o.sign(budget, signers, blockhash);
    if signature.None? {
      return Failure(Signing);
    }
    ghost var before := rpc.chain;
    var sim := rpc.Pass(0);
    GrowsTransitive(old(rpc.chain), before, rpc.chain);
    if sim.simulation.None? {
      return Failure(SimulationRpc);
    }
    var units := if sim.simulation.value.units.Some? then sim.simulation.value.units.value else 0;
    if sim.simulation.value.error.Some? {
      return Failure(SimulationFailed(sim.simulation.value.error.value));
    }
    return Success(Prepared(Tx(signature.value, budget, signers, blockhash), lastValid, units));
  }

  /** What one submission has sent: nothing, or what was prepared, signed once and sent a number of times. */
  datatype Wire = Wire(prepared: Option<Prepared>, times: nat)

  function Bytes(w: Wire): seq<Tx> { if w.prepared.None? then [] else Repeat(w.prepared.value.tx, w.times) }

  method Submit(rpc: Rpc, o: Order, config: Config)
    returns (r: Result<Outcome, SubmissionError>, ghost wire: Wire, ghost passes: nat)
    requires rpc.Valid() && config.pollInterval > 0
    modifies rpc
    ensures rpc.Valid() && Grows(old(rpc.chain), rpc.chain)
    // one signed transaction, at most `Attempts` times; none exactly for the early errors
    ensures rpc.sent == old(rpc.sent) + Bytes(wire)
    ensures wire.prepared.None? <==> Early(r)
    ensures var first, second := rpc.behave(old(rpc.calls)), rpc.behave(old(rpc.calls) + 1);
            match wire.prepared
            case None => StoppedBy(r.error, o, config, first, second) && rpc.chain.inFlight == old(rpc.chain.inFlight)
            case Some(p) => PreparedFrom(p, o, config, first, second)
                            && rpc.chain.inFlight <= old(rpc.chain.inFlight) + {p.tx}
    // every reply to a send but the last was a transport error; the last one, and then the confirmation, decides
    ensures wire.prepared.Some? ==>
              SendsUntil(rpc, old(rpc.calls) + 2, wire.times, config)
                && Answers(rpc, wire, old(rpc.calls) + 2, passes, r, config)
    // what the answer says is what the ledger holds
    ensures wire.prepared.Some? ==>
              Confirmed(rpc.chain.ledger, wire.prepared.value.tx.signature, r)
    // whatever landed, no signature has executed twice
    ensures forall s :: Executions(rpc.chain.executed, s) <= 1
    // after two calls to prepare it and those of the send loop, the passes account for every call made
    ensures passes > 0 ==>
              3 * passes - 2 <= rpc.calls - (old(rpc.calls) + 2 * wire.times + 1) <= 3 * passes - 1
    ensures passes == 0 ==> rpc.calls <= old(rpc.calls) + 2 * wire.times + (if wire.prepared.Some? then 1 else 2)
    ensures PassBound(passes, config)
  {
    hide Grows, ValidChain, Confirms, PreparedFrom, StoppedBy, Executions, Collected, SignatureOf, Budgeted;
    wire, passes := Wire(None, 0), 0;
    var prepared := Prepare(rpc, o, config);
    if prepared.Failure? {
      NeverTwice(rpc.chain);
      return Failure(prepared.error), wire, passes;
    }
    var Prepared(tx, lastValid, units) := prepared.value;
    ghost var before := rpc.chain;
    var end;
    ghost var n;
    end, n := SendLoop(rpc, tx, config);
    wire := Wire(Some(prepared.value), n);
    GrowsTransitive(old(rpc.chain), before, rpc.chain);
    if end.NotSent? {
      NeverTwice(rpc.chain);
      return Failure(end.error), wire, passes;
    }
    before := rpc.chain;
    r, passes := ConfirmLoop(rpc, tx, lastValid, units, config);
    GrowsTransitive(old(rpc.chain), before, rpc.chain);
    NeverTwice(rpc.chain);
  }

  /** A send loop of `n` attempts that began at call `first`. */
  ghost predicate SendsUntil(rpc: Rpc, first: nat, n: nat, config: Config) {
    && 1 <= n <= Attempts(config)
    && (forall i :: 0 <= i < n - 1 ==> SendReplyAt(rpc, first, i).TransportError?)
    && (SendReplyAt(rpc, first, n - 1).TransportError? ==> n == Attempts(config))
  }

  /** The answer after the last reply of the send loop that began at call `first`: a rejection or another
      signature ends the submission, anything else is left to the confirmation. */
  ghost predicate Answers(rpc: Rpc, wire: Wire, first: nat, passes: nat, r: Result<Outcome, SubmissionError>,
                          config: Config)
    requires wire.prepared.Some? && wire.times >= 1
    reads rpc
  {
    var Prepared(tx, lastValid, units) := wire.prepared.value;
    var confirming := first + 2 * wire.times - 1;
    var confirmed := && 0 < confirming <= |rpc.moments|
                     && var started := rpc.moments[confirming - 1].clock;
                        Confirms(WatchOf(rpc, tx.signature, units, lastValid, started, config), confirming, passes, r);
    match SendReplyAt(rpc, first, wire.times - 1)
    case Rejected(message) => r == Failure(SubmissionRejected(message)) && passes == 0
    case Accepted(s) =>
      if s == tx.signature then confirmed
      else r == Failure(AmbiguousConfirmation(tx.signature, DifferentSignature)) && passes == 0
    case TransportError => confirmed
  }

  lemma NeverTwice(c: Chain)
    requires ValidChain(c)
    ensures forall s :: Executions(c.executed, s) <= 1
  {
    forall s
      ensures Executions(c.executed, s) <= 1
    {
      AtMostOnce(c.executed, s);
    }
  }
}
