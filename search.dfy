/** The nonce search of the mining thread around one template: each round
    hands the header to the proof-of-work solver, then decides whether the
    template must be rebuilt; otherwise it bumps the nonce and the time and
    tries again. The solver itself is left out: whether it found a block in
    a round is an observation, like the other readings of the outside world
    the loop makes. */
module MiningLoop {
  import opened MinerTypes
  import opened BlockAssembly

  /** What one round of the search reads from outside: the last solution
      the solver handed to the validBlock callback in that round, which
      writes it into the header (None when the solver offered none),
      whether the solver found a valid block and left the loop for it
      (EhOptimisedSolve does; the tromp solver's break leaves only its loop
      over solutions, so for it `found` is false and the new tip ends the
      search), whether there are no peers, whether the pool's
      transaction-update counter moved since the template was built, the
      seconds since the search started, whether the chain tip moved, and
      the adjusted time UpdateTime reads. */
  datatype Observation = Observation(lastSolution: Option<seq<byte>>, found: bool, noPeers: bool,
                                     txUpdatesChanged: bool, secondsSinceStart: int, tipChanged: bool,
                                     adjustedTime: int)

  /** The header's solution after the solver rounds `observations`, from
      `solution`: each callback call overwrites it, so the last solution
      offered wins. */
  function SolutionAfter(solution: seq<byte>, observations: seq<Observation>): seq<byte>
  {
    if observations == [] then solution
    else match observations[|observations| - 1].lastSolution
      case Some(s) => s
      case None => SolutionAfter(solution, observations[..|observations| - 1])
  }

  /** The solution left after a run of rounds is the one offered in the
      latest round that offered one. */
  lemma {:induction false} SolutionFromLatest(solution: seq<byte>, observations: seq<Observation>, i: nat)
    requires i < |observations| && observations[i].lastSolution.Some?
    requires forall j :: i < j < |observations| ==> observations[j].lastSolution.None?
    ensures SolutionAfter(solution, observations) == observations[i].lastSolution.value
  {
    if i < |observations| - 1 {
      SolutionFromLatest(solution, observations[..|observations| - 1], i);
    }
  }

  /** Rounds in which the solver offers no solution leave the header's
      solution as it was. */
  lemma {:induction false} SolutionUntouched(solution: seq<byte>, observations: seq<Observation>)
    requires forall j :: 0 <= j < |observations| ==> observations[j].lastSolution.None?
    ensures SolutionAfter(solution, observations) == solution
  {
    if observations != [] {
      SolutionUntouched(solution, observations[..|observations| - 1]);
    }
  }

  /** The solver's callback writes the solution it is handed into the
      header. */
  method RunSolver(b: Block, o: Observation)
    modifies b
    ensures b.solution == (if o.lastSolution.Some? then o.lastSolution.value else old(b.solution))
    ensures b.version == old(b.version) && b.prevHash == old(b.prevHash) && b.merkleRoot == old(b.merkleRoot)
    ensures b.reserved == old(b.reserved) && b.time == old(b.time) && b.bits == old(b.bits)
    ensures b.nonce == old(b.nonce) && b.vtx == old(b.vtx)
  {
    if o.lastSolution.Some? {
      b.solution := o.lastSolution.value;
    }
  }

  /** The nonce's low 16 bits, the search counter, all set. */
  const COUNTER_FULL: nat := TWO_16 - 1

  /** The exit checks after a solver round: no peers on a chain that needs
      them, the nonce counter exhausted, pool changes older than a minute,
      or a new tip. */
  predicate ShouldRebuild(o: Observation, nonce: nat, requiresPeers: bool)
  {
    (o.noPeers && requiresPeers) ||
    nonce % TWO_16 == COUNTER_FULL ||
    (o.txUpdatesChanged && o.secondsSinceStart > 60) ||
    o.tipChanged
  }

  /** A round stops the search: the solver found a block or a rebuild is
      due. */
  predicate Stops(o: Observation, nonce: nat, requiresPeers: bool)
  {
    o.found || ShouldRebuild(o, nonce, requiresPeers)
  }

  /** A round in which nothing outside changed and no block was found. */
  predicate Quiet(o: Observation)
  {
    !o.found && !o.noPeers && !o.txUpdatesChanged && !o.tipChanged
  }

  /** The 256-bit increment of the nonce. */
  function NextNonce(nonce: nat): (n: nat)
    ensures n < NONCE_MODULUS
    ensures nonce + 1 < NONCE_MODULUS ==> n == nonce + 1
    ensures nonce + 1 == NONCE_MODULUS ==> n == 0
  {
    (nonce + 1) % NONCE_MODULUS
  }

  /** Counting up from a nonce whose low 16 bits are clear: the low bits
      hold the count. */
  lemma CounterBits(start: nat, k: nat)
    requires start % TWO_16 == 0 && k < TWO_16
    ensures (start + k) % TWO_16 == k
  {
    DivModUnique(start + k, TWO_16, start / TWO_16, k);
  }

  /** Below the top 16 bits, an increment inside the counter range never
      wraps around. */
  lemma NoWrap(start: nat, k: nat)
    requires start < TWO_240 && k < COUNTER_FULL
    ensures NextNonce(start + k) == start + k + 1
  {
    DivModUnique(start + k + 1, NONCE_MODULUS, 0, start + k + 1);
  }

  /** From a template nonce, a quiet round is told to rebuild exactly when
      the counter reaches 0xffff. */
  lemma QuietBudget(start: nat, o: Observation, requiresPeers: bool, k: nat)
    requires start % TWO_16 == 0 && k <= COUNTER_FULL && Quiet(o)
    ensures Stops(o, start + k, requiresPeers) <==> k == COUNTER_FULL
  {
    CounterBits(start, k);
  }

  /** A search on a template nonce in which every round is quiet goes on
      for exactly 0xffff rounds and stops in the next. */
  lemma QuietSearchRounds(start: nat, observations: seq<Observation>, requiresPeers: bool, rounds: nat)
    requires start % TWO_16 == 0 && rounds <= COUNTER_FULL && rounds < |observations|
    requires forall r :: 0 <= r < |observations| ==> Quiet(observations[r])
    requires Stops(observations[rounds], start + rounds, requiresPeers)
    ensures rounds == COUNTER_FULL
  {
    QuietBudget(start, observations[rounds], requiresPeers, rounds);
  }

  /** The search loop over one template whose nonce is a template nonce
      (MaskNonceBits). `observations[r]` is what round r reads. Each round
      runs the solver, whose callback leaves the last solution offered in
      the header; a round that goes on then adds one to the nonce and calls
      UpdateTime, and on a minimum-difficulty chain the target follows the
      new time. The loop stops in the first round whose observation stops
      it, and the counter guarantees that happens within 0x10000 rounds.
      `rounds` is the number of rounds that went on before the one that
      stopped. */
  method Search(b: Block, prevBlock: nat, medianTimePast: int, allowMinDifficulty: bool,
                requiresPeers: bool, observations: seq<Observation>)
    returns (rounds: nat)
    requires b.nonce % TWO_16 == 0 && b.nonce < TWO_240
    requires |observations| >= TWO_16
    modifies b
    ensures rounds <= COUNTER_FULL
    ensures b.nonce == old(b.nonce) + rounds
    ensures Stops(observations[rounds], b.nonce, requiresPeers)
    ensures forall r :: 0 <= r < rounds ==> !Stops(observations[r], old(b.nonce) + r, requiresPeers)
    ensures rounds > 0 ==> b.time == BlockTime(medianTimePast, observations[rounds - 1].adjustedTime)
    ensures rounds == 0 ==> b.time == old(b.time)
    ensures b.bits == (if allowMinDifficulty && rounds > 0 then NextWorkRequired(prevBlock, b.time) else old(b.bits))
    ensures b.solution == SolutionAfter(old(b.solution), observations[..rounds + 1])
    ensures b.version == old(b.version) && b.prevHash == old(b.prevHash) && b.merkleRoot == old(b.merkleRoot)
    ensures b.reserved == old(b.reserved) && b.vtx == old(b.vtx)
  {
    rounds := 0;
    CounterBits(b.nonce, 0);
    RunSolver(b, observations[0]);
    assert observations[..1][..0] == [];
    while !Stops(observations[rounds], b.nonce, requiresPeers)
      invariant rounds <= COUNTER_FULL
      invariant b.nonce == old(b.nonce) + rounds
      invariant b.nonce % TWO_16 == rounds
      invariant forall r :: 0 <= r < rounds ==> !Stops(observations[r], old(b.nonce) + r, requiresPeers)
      invariant rounds > 0 ==> b.time == BlockTime(medianTimePast, observations[rounds - 1].adjustedTime)
      invariant rounds == 0 ==> b.time == old(b.time)
      invariant b.bits == (if allowMinDifficulty && rounds > 0 then NextWorkRequired(prevBlock, b.time) else old(b.bits))
      invariant b.solution == SolutionAfter(old(b.solution), observations[..rounds + 1])
      invariant b.version == old(b.version) && b.prevHash == old(b.prevHash) && b.merkleRoot == old(b.merkleRoot)
      invariant b.reserved == old(b.reserved) && b.vtx == old(b.vtx)
      decreases COUNTER_FULL - rounds
    {
      NoWrap(old(b.nonce), rounds);
      b.nonce := NextNonce(b.nonce);
      b.UpdateTime(prevBlock, medianTimePast, observations[rounds].adjustedTime, allowMinDifficulty);
      rounds := rounds + 1;
      CounterBits(old(b.nonce), rounds);
      RunSolver(b, observations[rounds]);
      assert observations[..rounds + 1][..rounds] == observations[..rounds];
    }
  }
}
