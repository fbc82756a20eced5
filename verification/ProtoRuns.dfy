/** `drain_branches_to_blocked` and `feed_msg`: how the branches of a protocol component evolve, in whatever
    order the branch maps are visited. */
module ProtoRuns {
  import opened Network
  import opened Predicates
  import opened Proto
  import N = Native

  // ---- draining ----

  /** The drainer at work: the branches still to run in this pass, those of the next, and the results. */
  datatype Work<C> = Work(draining: Branches<C>, swap: Branches<C>, output: Branches<C>,
                          submitted: set<Predicate>, outgoing: set<(Id, Predicate, Bytes)>)

  ghost function Turned<C>(ctx: ProtoCtx, run: Runner<C>, w: Work<C>, key: Predicate): Work<C>
    requires key in w.draining
  {
    var t := RunOne(ctx, run, key, w.draining[key]);
    Work(w.draining - {key}, MergeAll(w.swap, t.again), MergeAll(w.output, t.out), w.submitted + t.submit, w.outgoing + t.send)
  }

  /** The branch under `key` is run next. */
  ghost predicate Runs<C>(ctx: ProtoCtx, run: Runner<C>, w: Work<C>, key: Predicate, w': Work<C>) {
    key in w.draining && !RunOne(ctx, run, key, w.draining[key]).panic && w' == Turned(ctx, run, w, key)
  }

  /** The next pass begins. */
  ghost predicate Swaps<C>(w: Work<C>, w': Work<C>) {
    w.draining == map[] && w.swap != map[] && w' == w.(draining := w.swap, swap := map[])
  }

  ghost predicate Turns<C>(ctx: ProtoCtx, run: Runner<C>, w: Work<C>, w': Work<C>) {
    Swaps(w, w') || exists key :: Runs(ctx, run, w, key, w')
  }

  ghost predicate IsDrain<C>(ctx: ProtoCtx, run: Runner<C>, trace: seq<Work<C>>) {
    |trace| > 0 && forall i | 0 <= i < |trace| - 1 :: Turns(ctx, run, trace[i], trace[i + 1])
  }

  ghost predicate Drained<C>(ctx: ProtoCtx, run: Runner<C>, trace: seq<Work<C>>, from: Work<C>, to: Work<C>) {
    IsDrain(ctx, run, trace) && trace[0] == from && trace[|trace| - 1] == to
  }

  /** An assertion fails when one of the branches is run. */
  ghost predicate Panics<C>(ctx: ProtoCtx, run: Runner<C>, w: Work<C>) {
    exists key <- w.draining :: RunOne(ctx, run, key, w.draining[key]).panic
  }

  ghost predicate Unended<C>(branches: Branches<C>) {
    forall k <- branches :: !branches[k].ended
  }

  /** A component puts on its own ports only. */
  ghost predicate PutsOwn<C(!new)>(ctx: ProtoCtx, run: Runner<C>) {
    forall c: C, inbox, did, key :: run(c, inbox, did, key).blocker.PutMsg? ==> run(c, inbox, did, key).blocker.port in ctx.owned
  }

  ghost predicate ResultsOk<C(!new)>(ctx: ProtoCtx, run: Runner<C>, submitted: set<Predicate>, outgoing: set<(Id, Predicate, Bytes)>) {
    && (forall p <- submitted :: Decides(ctx, p)) && (forall o <- outgoing :: MessageOk(ctx, o))
    && (PutsOwn(ctx, run) ==> forall o <- outgoing :: o.0 in ctx.owned)
  }

  ghost predicate WorkOk<C(!new)>(ctx: ProtoCtx, log: set<N.Message>, run: Runner<C>, w: Work<C>) {
    && BranchesOk(ctx, log, w.draining) && BranchesOk(ctx, log, w.swap) && BranchesOk(ctx, log, w.output)
    && Unended(w.draining) && Unended(w.swap) && ResultsOk(ctx, run, w.submitted, w.outgoing) && WorkAccounted(w)
    && EndsSubmitted(w.output, w.submitted)
  }

  /** Wherever a branch has ended, its key was submitted. */
  ghost predicate EndsSubmitted<C>(branches: Branches<C>, submitted: set<Predicate>) {
    forall k <- branches | branches[k].ended :: k in submitted
  }

  /** No branch has used a port on which it neither received nor put. */
  ghost predicate WorkAccounted<C>(w: Work<C>) {
    AllAccounted(w.outgoing, w.draining) && AllAccounted(w.outgoing, w.swap) && AllAccounted(w.outgoing, w.output)
  }

  ghost predicate AllAccounted<C>(outgoing: set<(Id, Predicate, Bytes)>, branches: Branches<C>) {
    forall k <- branches :: Accounted(outgoing, k, branches[k])
  }

  /** What has come out stays. */
  ghost predicate Grew<C>(w: Work<C>, w': Work<C>) {
    Grown(w.output, w'.output) && w.submitted <= w'.submitted && w.outgoing <= w'.outgoing
  }

  lemma {:induction false} MergeAllUnended<C>(branches: Branches<C>, xs: seq<(Predicate, ProtoBranch<C>)>)
    requires Unended(branches) && forall x <- xs :: !x.1.ended
    ensures Unended(MergeAll(branches, xs))
    decreases |xs|
  {
    if xs != [] { MergeAllUnended(Merge(branches, xs[0].0, xs[0].1), xs[1..]); }
  }

  lemma TurnResults<C(!new)>(ctx: ProtoCtx, log: set<N.Message>, run: Runner<C>, key: Predicate, b: ProtoBranch<C>,
                             submitted: set<Predicate>, outgoing: set<(Id, Predicate, Bytes)>)
    requires TurnOk(ctx, log, key, b, RunOne(ctx, run, key, b)) && ResultsOk(ctx, run, submitted, outgoing)
    ensures var t := RunOne(ctx, run, key, b); ResultsOk(ctx, run, submitted + t.submit, outgoing + t.send)
  {
    hide MessageOk, Rank, N.Sound, Binary, Within;
    var t := RunOne(ctx, run, key, b);
    forall p | p in t.submit ensures Decides(ctx, p) {
      var x :| x in t.out && x.0 == p && x.1.ended;
      assert BranchOk(ctx, log, x.0, x.1);
    }
    if PutsOwn(ctx, run) { SendsOwn(ctx, run, key, b); }
  }

  lemma SendsOwn<C(!new)>(ctx: ProtoCtx, run: Runner<C>, key: Predicate, b: ProtoBranch<C>)
    requires PutsOwn(ctx, run)
    ensures forall o <- RunOne(ctx, run, key, b).send :: o.0 in ctx.owned
  {
    hide Settles, EndKey;
  }

  lemma AccountedMore<C>(outgoing: set<(Id, Predicate, Bytes)>, outgoing': set<(Id, Predicate, Bytes)>, key: Predicate, key': Predicate,
                         b: ProtoBranch<C>)
    requires Accounted(outgoing, key, b) && outgoing <= outgoing' && Within(key, key')
    ensures Accounted(outgoing', key', b)
  {
    hide Within;
    forall p | p in b.did && p !in b.inbox ensures SentUnder(outgoing', p, key') {
      var o :| o in outgoing && o.0 == p && Within(o.1, key);
      WithinTrans(o.1, key, key');
    }
  }

  lemma AllAccountedMore<C>(outgoing: set<(Id, Predicate, Bytes)>, outgoing': set<(Id, Predicate, Bytes)>, branches: Branches<C>)
    requires AllAccounted(outgoing, branches) && outgoing <= outgoing'
    ensures AllAccounted(outgoing', branches)
  {
    hide Accounted, Within;
    forall k | k in branches ensures Accounted(outgoing', k, branches[k]) {
      WithinSelf(k);
      AccountedMore(outgoing, outgoing', k, k, branches[k]);
    }
  }

  lemma MergeAccounted<C>(outgoing: set<(Id, Predicate, Bytes)>, branches: Branches<C>, key: Predicate, b: ProtoBranch<C>)
    requires AllAccounted(outgoing, branches) && Accounted(outgoing, key, b)
    ensures AllAccounted(outgoing, Merge(branches, key, b))
  {
    hide SentUnder;
  }

  lemma {:induction false} MergeAllAccounted<C>(outgoing: set<(Id, Predicate, Bytes)>, branches: Branches<C>, xs: seq<(Predicate, ProtoBranch<C>)>)
    requires AllAccounted(outgoing, branches) && forall x <- xs :: Accounted(outgoing, x.0, x.1)
    ensures AllAccounted(outgoing, MergeAll(branches, xs))
    decreases |xs|
  {
    hide Accounted, AllAccounted, Merge;
    if xs != [] {
      MergeAccounted(outgoing, branches, xs[0].0, xs[0].1);
      MergeAllAccounted(outgoing, Merge(branches, xs[0].0, xs[0].1), xs[1..]);
    }
  }

  lemma UsesAccounted<C>(outgoing: set<(Id, Predicate, Bytes)>, key: Predicate, b: ProtoBranch<C>, key': Predicate, b': ProtoBranch<C>,
                         send: set<(Id, Predicate, Bytes)>)
    requires Accounted(outgoing, key, b) && Within(key, key') && b'.inbox == b.inbox && NewlyUsed(b, key', b', send)
    ensures Accounted(outgoing + send, key', b')
  {
    hide Within, SentUnder;
    AccountedMore(outgoing, outgoing + send, key, key', b);
    forall p | p in b'.did && p !in b'.inbox ensures SentUnder(outgoing + send, p, key') {
      if p !in b.did { SentMore(send, outgoing + send, p, key'); }
    }
  }

  lemma SentMore(outgoing: set<(Id, Predicate, Bytes)>, outgoing': set<(Id, Predicate, Bytes)>, p: Id, key: Predicate)
    requires SentUnder(outgoing, p, key) && outgoing <= outgoing'
    ensures SentUnder(outgoing', p, key)
  {
    hide Within;
  }

  lemma RunsAccounted<C(!new)>(ctx: ProtoCtx, log: set<N.Message>, run: Runner<C>, w: Work<C>, key: Predicate)
    requires key in w.draining && WorkAccounted(w) && TurnOk(ctx, log, key, w.draining[key], RunOne(ctx, run, key, w.draining[key]))
    ensures WorkAccounted(Turned(ctx, run, w, key))
  {
    hide Accounted, BranchOk, Within, Rank, MessageOk, NewlyUsed, RunOne, MergeAll;
    var b := w.draining[key];
    var t := RunOne(ctx, run, key, b);
    var outgoing := w.outgoing + t.send;
    AllAccountedMore(w.outgoing, outgoing, w.draining);
    AllAccountedMore(w.outgoing, outgoing, w.swap);
    AllAccountedMore(w.outgoing, outgoing, w.output);
    forall x | x in t.again || x in t.out ensures Accounted(outgoing, x.0, x.1) { UsesAccounted(w.outgoing, key, b, x.0, x.1, t.send); }
    MergeAllAccounted(outgoing, w.swap, t.again);
    MergeAllAccounted(outgoing, w.output, t.out);
  }

  lemma MergeEnds<C>(branches: Branches<C>, key: Predicate, b: ProtoBranch<C>, submitted: set<Predicate>)
    requires EndsSubmitted(branches, submitted) && (b.ended ==> key in submitted)
    ensures EndsSubmitted(Merge(branches, key, b), submitted)
  {
  }

  /** A branch that ends in a turn is submitted in that turn. */
  lemma RunsEnds<C>(ctx: ProtoCtx, run: Runner<C>, w: Work<C>, key: Predicate)
    requires key in w.draining && !w.draining[key].ended && EndsSubmitted(w.output, w.submitted)
    ensures EndsSubmitted(Turned(ctx, run, w, key).output, Turned(ctx, run, w, key).submitted)
  {
    hide Settles, EndKey, Merge;
    var t := RunOne(ctx, run, key, w.draining[key]);
    if t.out == [] {
      assert MergeAll(w.output, t.out) == w.output;
    } else {
      assert t.out == [t.out[0]];
      MergeSingle(w.output, t.out[0].0, t.out[0].1);
      hide MergeAll;
      MergeEnds(w.output, t.out[0].0, t.out[0].1, w.submitted + t.submit);
    }
  }

  lemma RunsOk<C(!new)>(ctx: ProtoCtx, log: set<N.Message>, run: Runner<C>, w: Work<C>, key: Predicate, w': Work<C>)
    requires ctx.Valid() && Recording(run) && WorkOk(ctx, log, run, w) && Runs(ctx, run, w, key, w')
    ensures WorkOk(ctx, log, run, w') && Grew(w, w')
  {
    hide Rank, Grown, Recording, RunOne, MergeAll, ResultsOk, BranchOk, Within, MessageOk, ProtoCtx.Valid, TurnUses, WorkAccounted, EndsSubmitted;
    var b := w.draining[key];
    RunsEnds(ctx, run, w, key);
    RunOneOk(ctx, log, run, key, b);
    RunsAccounted(ctx, log, run, w, key);
    AgainRuns(ctx, run, key, b);
    TurnResults(ctx, log, run, key, b, w.submitted, w.outgoing);
    var t := RunOne(ctx, run, key, b);
    MergeAllOk(ctx, log, w.swap, t.again);
    MergeAllUnended(w.swap, t.again);
    MergeAllOk(ctx, log, w.output, t.out);
  }

  lemma TurnsOk<C(!new)>(ctx: ProtoCtx, log: set<N.Message>, run: Runner<C>, w: Work<C>, w': Work<C>)
    requires ctx.Valid() && Recording(run) && WorkOk(ctx, log, run, w) && Turns(ctx, run, w, w')
    ensures WorkOk(ctx, log, run, w') && Grew(w, w')
  {
    hide Runs, Grown, BranchOk, ResultsOk, ProtoCtx.Valid, Recording;
    if Swaps(w, w') {
      GrownSelf(w.output);
    } else {
      var key :| Runs(ctx, run, w, key, w');
      RunsOk(ctx, log, run, w, key, w');
    }
  }

  lemma GrewTrans<C>(a: Work<C>, b: Work<C>, c: Work<C>)
    requires Grew(a, b) && Grew(b, c)
    ensures Grew(a, c)
  {
    hide Grown;
    GrownTrans(a.output, b.output, c.output);
  }

  lemma {:induction false} DrainOk<C(!new)>(ctx: ProtoCtx, log: set<N.Message>, run: Runner<C>, trace: seq<Work<C>>, j: nat, k: nat)
    requires ctx.Valid() && Recording(run) && IsDrain(ctx, run, trace) && j <= k < |trace| && WorkOk(ctx, log, run, trace[j])
    ensures WorkOk(ctx, log, run, trace[k]) && Grew(trace[j], trace[k])
    decreases k
  {
    hide WorkOk, Grew, Turns, ProtoCtx.Valid, Recording;
    if j < k {
      DrainOk(ctx, log, run, trace, j, k - 1);
      assert Turns(ctx, run, trace[k - 1], trace[k - 1 + 1]);
      TurnsOk(ctx, log, run, trace[k - 1], trace[k]);
      GrewTrans(trace[j], trace[k - 1], trace[k]);
    } else {
      GrewSelf(trace[j]);
    }
  }

  lemma GrewSelf<C>(w: Work<C>)
    ensures Grew(w, w)
  {
    GrownSelf(w.output);
  }

  // ---- losing an end ----

  /** The output holds a branch under `p` that has not ended. */
  ghost predicate Occupied<C>(output: Branches<C>, p: Predicate) {
    p in output && !output[p].ended
  }

  /** A branch that ends under `p` in the `i`-th turn of a drain is submitted, and its end is kept if and only if
      no branch that has not ended was in its place by then. */
  lemma EndIsKeptExactlyWhen<C(!new)>(ctx: ProtoCtx, log: set<N.Message>, run: Runner<C>, trace: seq<Work<C>>, i: nat, key: Predicate, p: Predicate)
    requires ctx.Valid() && Recording(run) && IsDrain(ctx, run, trace) && WorkOk(ctx, log, run, trace[0]) && i < |trace| - 1
    requires Runs(ctx, run, trace[i], key, trace[i + 1]) && p in RunOne(ctx, run, key, trace[i].draining[key]).submit
    ensures var last := trace[|trace| - 1];
      && p in last.submitted && p in last.output
      && (last.output[p].ended <==> !Occupied(trace[i].output, p))
  {
    hide WorkOk, IsDrain, ProtoCtx.Valid, Recording, RunOne;
    DrainOk(ctx, log, run, trace, 0, i + 1);
    DrainOk(ctx, log, run, trace, i + 1, |trace| - 1);
    EndsHere(ctx, run, key, trace[i].draining[key], trace[i].output, p);
  }

  lemma EndsHere<C>(ctx: ProtoCtx, run: Runner<C>, key: Predicate, b: ProtoBranch<C>, output: Branches<C>, p: Predicate)
    requires p in RunOne(ctx, run, key, b).submit
    ensures var after := MergeAll(output, RunOne(ctx, run, key, b).out);
      p in after && (after[p].ended <==> !Occupied(output, p))
  {
    hide Settles, EndKey;
    var t := RunOne(ctx, run, key, b);
    assert |t.out| == 1 && t.out[0].0 == p && t.out[0].1.ended;
    assert MergeAll(Merge(output, t.out[0].0, t.out[0].1), t.out[1..]) == Merge(output, p, t.out[0].1);
  }

  /** `collapse_with` has a branch to commit. */
  ghost predicate CanCommit<C>(branches: Branches<C>, q: Predicate) {
    exists k <- branches :: branches[k].ended && Within(k, q)
  }

  /** In this turn a branch ends within `q`, and no branch that has not ended is in its place. */
  ghost predicate KeepsEnd<C>(ctx: ProtoCtx, run: Runner<C>, w: Work<C>, key: Predicate, q: Predicate) {
    key in w.draining && exists e <- RunOne(ctx, run, key, w.draining[key]).submit :: Within(e, q) && !Occupied(w.output, e)
  }

  lemma TurnCommits<C>(ctx: ProtoCtx, run: Runner<C>, w: Work<C>, key: Predicate, w': Work<C>, q: Predicate)
    requires Runs(ctx, run, w, key, w') && !w.draining[key].ended
    ensures CanCommit(w'.output, q) <==> CanCommit(w.output, q) || KeepsEnd(ctx, run, w, key, q)
  {
    hide Settles, EndKey, Within, Merge;
    var t := RunOne(ctx, run, key, w.draining[key]);
    if t.out == [] {
      assert MergeAll(w.output, t.out) == w.output;
    } else {
      assert t.out == [t.out[0]];
      MergeSingle(w.output, t.out[0].0, t.out[0].1);
      hide MergeAll;
      OneMoreCommits(w.output, t.out[0].0, t.out[0].1, q);
    }
  }

  lemma OneMoreCommits<C>(output: Branches<C>, key: Predicate, b: ProtoBranch<C>, q: Predicate)
    ensures CanCommit(Merge(output, key, b), q) <==> CanCommit(output, q) || (b.ended && Within(key, q) && !Occupied(output, key))
  {
    hide Within;
    var more := Merge(output, key, b);
    if CanCommit(output, q) {
      var k :| k in output && output[k].ended && Within(k, q);
      assert more[k].ended;
    }
    if b.ended && Within(key, q) && !Occupied(output, key) { assert more[key].ended; }
    if CanCommit(more, q) {
      var k :| k in more && more[k].ended && Within(k, q);
      assert k == key || output[k].ended;
    }
  }

  /** Some turn before the `k`-th keeps an end within `q`. */
  ghost predicate KeptSome<C(!new)>(ctx: ProtoCtx, run: Runner<C>, trace: seq<Work<C>>, k: nat, q: Predicate)
    requires k < |trace|
  {
    exists i, key | 0 <= i < k :: Runs(ctx, run, trace[i], key, trace[i + 1]) && KeepsEnd(ctx, run, trace[i], key, q)
  }

  /** After a drain, `collapse_with` finds a branch for `q` if and only if it did before, or some branch ended within
      `q` when no branch that had not ended was in its place. */
  lemma {:induction false} CommitsExactlyWhenKept<C(!new)>(ctx: ProtoCtx, log: set<N.Message>, run: Runner<C>, trace: seq<Work<C>>, k: nat, q: Predicate)
    requires ctx.Valid() && Recording(run) && IsDrain(ctx, run, trace) && WorkOk(ctx, log, run, trace[0]) && k < |trace|
    ensures CanCommit(trace[k].output, q) <==> CanCommit(trace[0].output, q) || KeptSome(ctx, run, trace, k, q)
    decreases k
  {
    hide WorkOk, Runs, ProtoCtx.Valid, Recording, CanCommit, KeepsEnd;
    if k > 0 {
      CommitsExactlyWhenKept(ctx, log, run, trace, k - 1, q);
      DrainOk(ctx, log, run, trace, 0, k - 1);
      assert Turns(ctx, run, trace[k - 1], trace[k - 1 + 1]);
      LastTurn(ctx, log, run, trace, k, q);
    }
  }

  lemma LastTurn<C(!new)>(ctx: ProtoCtx, log: set<N.Message>, run: Runner<C>, trace: seq<Work<C>>, k: nat, q: Predicate)
    requires 0 < k < |trace| && WorkOk(ctx, log, run, trace[k - 1]) && Turns(ctx, run, trace[k - 1], trace[k])
    ensures CanCommit(trace[k - 1].output, q) ==> CanCommit(trace[k].output, q)
    ensures CanCommit(trace[k].output, q) ==> CanCommit(trace[k - 1].output, q) || KeptSome(ctx, run, trace, k, q)
    ensures KeptSome(ctx, run, trace, k, q) ==> KeptSome(ctx, run, trace, k - 1, q) || CanCommit(trace[k].output, q)
    ensures KeptSome(ctx, run, trace, k - 1, q) ==> KeptSome(ctx, run, trace, k, q)
  {
    hide WorkOk, CanCommit, KeepsEnd, Runs, Unended, Turns;
    var w, w' := trace[k - 1], trace[k];
    DrainingUnended(ctx, log, run, w);
    AnyTurnCommits(ctx, run, w, w', q);
    assert trace[k - 1 + 1] == w';
  }

  lemma DrainingUnended<C(!new)>(ctx: ProtoCtx, log: set<N.Message>, run: Runner<C>, w: Work<C>)
    requires WorkOk(ctx, log, run, w)
    ensures Unended(w.draining)
  {
  }

  lemma AnyTurnCommits<C(!new)>(ctx: ProtoCtx, run: Runner<C>, w: Work<C>, w': Work<C>, q: Predicate)
    requires Unended(w.draining) && Turns(ctx, run, w, w')
    ensures CanCommit(w.output, q) ==> CanCommit(w'.output, q)
    ensures CanCommit(w'.output, q) ==> CanCommit(w.output, q) || exists key :: Runs(ctx, run, w, key, w') && KeepsEnd(ctx, run, w, key, q)
    ensures forall key | Runs(ctx, run, w, key, w') && KeepsEnd(ctx, run, w, key, q) :: CanCommit(w'.output, q)
  {
    hide CanCommit, KeepsEnd;
    forall key | Runs(ctx, run, w, key, w')
      ensures CanCommit(w'.output, q) <==> CanCommit(w.output, q) || KeepsEnd(ctx, run, w, key, q)
    {
      assert key in w.draining;
      TurnCommits(ctx, run, w, key, w', q);
    }
    hide Runs;
  }

  /** Whatever a drain has still to run, and whatever it adds to the results, assumes `base`. */
  ghost predicate Assumes<C>(base: Predicate, from: Work<C>, w: Work<C>) {
    && (forall k <- w.draining :: Within(base, k)) && (forall k <- w.swap :: Within(base, k))
    && (forall k <- w.output :: k in from.output || Within(base, k))
    && (forall p <- w.submitted :: p in from.submitted || Within(base, p))
  }

  lemma {:induction false} MergeAllAssumes<C>(base: Predicate, branches: Branches<C>, xs: seq<(Predicate, ProtoBranch<C>)>, k: Predicate)
    requires k in MergeAll(branches, xs) && forall x <- xs :: Within(base, x.0)
    ensures k in branches || Within(base, k)
    decreases |xs|
  {
    hide Within;
    if xs != [] { MergeAllAssumes(base, Merge(branches, xs[0].0, xs[0].1), xs[1..], k); }
  }

  lemma RunsAssumes<C(!new)>(ctx: ProtoCtx, log: set<N.Message>, run: Runner<C>, base: Predicate, from: Work<C>, w: Work<C>, key: Predicate, w': Work<C>)
    requires ctx.Valid() && Recording(run) && WorkOk(ctx, log, run, w) && Runs(ctx, run, w, key, w') && Assumes(base, from, w)
    ensures Assumes(base, from, w')
  {
    hide Rank, Recording, RunOne, MergeAll, ResultsOk, BranchOk, Within, MessageOk, ProtoCtx.Valid;
    var t := RunOne(ctx, run, key, w.draining[key]);
    RunOneOk(ctx, log, run, key, w.draining[key]);
    forall x | x in t.again || x in t.out ensures Within(base, x.0) { WithinTrans(base, key, x.0); }
    forall k | k in w'.swap ensures Within(base, k) { MergeAllAssumes(base, w.swap, t.again, k); }
    forall k | k in w'.output ensures k in from.output || Within(base, k) { MergeAllAssumes(base, w.output, t.out, k); }
    forall p | p in t.submit ensures Within(base, p) { var x :| x in t.out && x.0 == p && x.1.ended; }
  }

  lemma WithinTrans(p: Predicate, q: Predicate, r: Predicate)
    requires Within(p, q) && Within(q, r)
    ensures Within(p, r)
  {
  }

  lemma {:induction false} DrainAssumes<C(!new)>(ctx: ProtoCtx, log: set<N.Message>, run: Runner<C>, base: Predicate, trace: seq<Work<C>>, k: nat)
    requires ctx.Valid() && Recording(run) && IsDrain(ctx, run, trace) && k < |trace| && WorkOk(ctx, log, run, trace[0])
    requires Assumes(base, trace[0], trace[0])
    ensures Assumes(base, trace[0], trace[k])
    decreases k
  {
    hide WorkOk, Runs, Within, ProtoCtx.Valid, Recording;
    if k > 0 {
      DrainAssumes(ctx, log, run, base, trace, k - 1);
      DrainOk(ctx, log, run, trace, 0, k - 1);
      assert Turns(ctx, run, trace[k - 1], trace[k - 1 + 1]);
      if !Swaps(trace[k - 1], trace[k]) {
        var key :| Runs(ctx, run, trace[k - 1], key, trace[k]);
        RunsAssumes(ctx, log, run, base, trace[0], trace[k - 1], key, trace[k]);
      }
    }
  }

  // ---- feeding ----

  /** The component in the course of a round: `log` are the messages it has been fed. */
  datatype ProtoState<C> = ProtoState(branches: Branches<C>, submitted: set<Predicate>, outgoing: set<(Id, Predicate, Bytes)>,
                                      log: set<N.Message>)

  ghost function Resting<C>(s: ProtoState<C>): Work<C> {
    Work(map[], map[], s.branches, s.submitted, s.outgoing)
  }

  ghost predicate ProtoOk<C(!new)>(ctx: ProtoCtx, run: Runner<C>, s: ProtoState<C>) {
    ctx.Valid() && Recording(run) && WorkOk(ctx, s.log, run, Resting(s))
  }

  /** The branch has already received something else on this port. */
  predicate Mismatch<C>(b: ProtoBranch<C>, m: N.Message) {
    m.getter in b.inbox && b.inbox[m.getter] != m.payload
  }

  ghost predicate Contradicts<C>(key: Predicate, b: ProtoBranch<C>, m: N.Message) {
    !b.ended && Consistent(key, m.pred) && Mismatch(b, m)
  }

  /** Some branch that receives the message has already received something else on this port. */
  ghost predicate Contradicted<C>(branches: Branches<C>, m: N.Message) {
    exists k <- branches :: Contradicts(k, branches[k], m)
  }

  lemma ContradictedMeans<C>(branches: Branches<C>, m: N.Message)
    ensures Contradicted(branches, m) <==> exists k <- branches ::
      !branches[k].ended && Consistent(k, m.pred) && m.getter in branches[k].inbox && branches[k].inbox[m.getter] != m.payload
  {
    hide Consistent;
  }

  /** The branches parted into those that receive the message and the others, visited in some order. */
  ghost function PartAll<C>(m: N.Message, order: seq<Predicate>, branches: Branches<C>): (Branches<C>, Branches<C>)
    requires forall k <- order :: k in branches
    decreases |order|
  {
    if order == [] then (map[], map[])
    else
      var front, last := order[..|order| - 1], order[|order| - 1];
      var (unblocked, blocked) := PartAll(m, front, branches);
      PartOne(m, last, branches[last], unblocked, blocked)
  }

  ghost function Rest<C>(branches: Branches<C>, order: seq<Predicate>): Branches<C> {
    map k | k in branches && k !in order :: branches[k]
  }

  lemma RestNext<C>(branches: Branches<C>, order: seq<Predicate>, key: Predicate)
    requires key in Rest(branches, order)
    ensures key in branches && Rest(branches, order)[key] == branches[key]
    ensures Rest(branches, order + [key]) == Rest(branches, order) - {key} && |Rest(branches, order) - {key}| < |Rest(branches, order)|
  {
    assert Rest(branches, order).Keys == (Rest(branches, order) - {key}).Keys + {key};
  }

  lemma RestStart<C>(branches: Branches<C>)
    ensures Rest(branches, []) == branches
  {
  }

  lemma RestHas<C>(branches: Branches<C>, order: seq<Predicate>, key: Predicate)
    requires key in branches && key !in order
    ensures key in Rest(branches, order)
  {
  }

  lemma {:induction false} PartAllParts<C>(ctx: ProtoCtx, log: set<N.Message>, m: N.Message, order: seq<Predicate>, branches: Branches<C>)
    requires BranchesOk(ctx, log, branches) && m in log && Binary(ctx.channels, m.pred) && Distinct(order) && forall k <- order :: k in branches
    ensures var (u, b) := PartAll(m, order, branches); Parting(ctx, log, m, branches, Rest(branches, order), u, b)
    decreases |order|
  {
    hide Parting, BranchesOk, Binary, PartOne, Rest;
    if order == [] {
      RestStart(branches);
      PartStart(ctx, log, m, branches);
    } else {
      var front, last := order[..|order| - 1], order[|order| - 1];
      assert order == front + [last];
      PartAllParts(ctx, log, m, front, branches);
      RestHas(branches, front, last);
      RestNext(branches, front, last);
      var (u, b) := PartAll(m, front, branches);
      PartNext(ctx, log, m, branches, Rest(branches, front), last, u, b);
    }
  }

  /** Those that receive the message assume what it assumes; of the others only ended ones do. */
  ghost predicate Separate<C>(m: N.Message, unblocked: Branches<C>, blocked: Branches<C>) {
    (forall k <- unblocked :: Within(m.pred, k)) && (forall k <- blocked :: Within(m.pred, k) ==> blocked[k].ended)
  }

  lemma PartOneSeparates<C>(m: N.Message, key: Predicate, b: ProtoBranch<C>, unblocked: Branches<C>, blocked: Branches<C>)
    requires Separate(m, unblocked, blocked) && key !in blocked
    ensures var (u, bl) := PartOne(m, key, b, unblocked, blocked); Separate(m, u, bl) && forall k <- bl :: k in blocked || k == key
  {
    hide Within, Consistent, Union;
    N.UnionKeys(key, m.pred);
    UnionAbove(key, m.pred);
  }

  lemma UnionAbove(p: Predicate, q: Predicate)
    ensures Union(p, q).Nonexistant? || Union(p, q).LatterNotFormer? || Union(p, q).New? ==> !Within(q, p)
    ensures Within(q, q)
  {
  }

  lemma {:induction false} PartAllSeparates<C>(m: N.Message, order: seq<Predicate>, branches: Branches<C>)
    requires Distinct(order) && forall k <- order :: k in branches
    ensures var (u, b) := PartAll(m, order, branches); Separate(m, u, b) && forall k <- b :: k in order
    decreases |order|
  {
    hide Separate, PartOne;
    if order == [] {
      SeparateNone<C>(m);
    } else {
      var front, last := order[..|order| - 1], order[|order| - 1];
      assert order == front + [last];
      PartAllSeparates(m, front, branches);
      var (u, b) := PartAll(m, front, branches);
      assert last !in front;
      PartOneSeparates(m, last, branches[last], u, b);
    }
  }

  lemma SeparateNone<C>(m: N.Message)
    ensures Separate<C>(m, map[], map[])
  {
  }

  lemma FedAccounted<C>(outgoing: set<(Id, Predicate, Bytes)>, key: Predicate, b: ProtoBranch<C>, m: N.Message, key': Predicate)
    requires Accounted(outgoing, key, b) && Within(key, key')
    ensures Accounted(outgoing, key', Fed(b, m))
  {
    hide Within, SentUnder;
    AccountedMore(outgoing, outgoing, key, key', b);
  }

  lemma PartOneAccounted<C>(outgoing: set<(Id, Predicate, Bytes)>, m: N.Message, key: Predicate, b: ProtoBranch<C>,
                            unblocked: Branches<C>, blocked: Branches<C>)
    requires Accounted(outgoing, key, b) && AllAccounted(outgoing, unblocked) && AllAccounted(outgoing, blocked)
    ensures var (u, bl) := PartOne(m, key, b, unblocked, blocked); AllAccounted(outgoing, u) && AllAccounted(outgoing, bl)
  {
    hide Accounted, AllAccounted, Within, Consistent, Union, Merge, Fed;
    MergeAccounted(outgoing, blocked, key, b);
    N.UnionKeys(key, m.pred);
    if Consistent(key, m.pred) {
      WithinSum(key, m.pred);
      FedAccounted(outgoing, key, b, m, key + m.pred);
      MergeAccounted(outgoing, unblocked, key + m.pred, Fed(b, m));
    }
  }

  lemma {:induction false} PartAllAccounted<C>(outgoing: set<(Id, Predicate, Bytes)>, m: N.Message, order: seq<Predicate>, branches: Branches<C>)
    requires AllAccounted(outgoing, branches) && forall k <- order :: k in branches
    ensures var (u, b) := PartAll(m, order, branches); AllAccounted(outgoing, u) && AllAccounted(outgoing, b)
    decreases |order|
  {
    hide Accounted, PartOne;
    if order != [] {
      var front, last := order[..|order| - 1], order[|order| - 1];
      assert order == front + [last];
      PartAllAccounted(outgoing, m, front, branches);
      var (u, b) := PartAll(m, front, branches);
      PartOneAccounted(outgoing, m, last, branches[last], u, b);
    }
  }

  lemma PartOneEnds<C>(submitted: set<Predicate>, m: N.Message, key: Predicate, b: ProtoBranch<C>, unblocked: Branches<C>, blocked: Branches<C>)
    requires (b.ended ==> key in submitted) && EndsSubmitted(blocked, submitted)
    ensures EndsSubmitted(PartOne(m, key, b, unblocked, blocked).1, submitted)
  {
    hide EndsSubmitted, Merge, Union, Fed;
    MergeEnds(blocked, key, b, submitted);
  }

  lemma {:induction false} PartAllEnds<C>(submitted: set<Predicate>, m: N.Message, order: seq<Predicate>, branches: Branches<C>)
    requires EndsSubmitted(branches, submitted) && forall k <- order :: k in branches
    ensures EndsSubmitted(PartAll(m, order, branches).1, submitted)
    decreases |order|
  {
    hide PartOne;
    if order != [] {
      var front, last := order[..|order| - 1], order[|order| - 1];
      assert order == front + [last];
      PartAllEnds(submitted, m, front, branches);
      var (u, b) := PartAll(m, front, branches);
      PartOneEnds(submitted, m, last, branches[last], u, b);
    }
  }

  /** The work that feeding leaves to the drainer. */
  ghost function FedWork<C>(m: N.Message, order: seq<Predicate>, s: ProtoState<C>): Work<C>
    requires forall k <- order :: k in s.branches
  {
    var (unblocked, blocked) := PartAll(m, order, s.branches);
    Work(unblocked, map[], blocked, s.submitted, s.outgoing)
  }

  ghost function Initial<C>(state: C): Work<C> {
    Work(map[map[] := ProtoBranch(state, {}, map[], false)], map[], map[], {}, {})
  }

  /** The component has been run to its first blockers. */
  ghost predicate ProtoStarts<C(!new)>(ctx: ProtoCtx, run: Runner<C>, state: C, s: ProtoState<C>) {
    s.log == {} && exists trace :: Drained(ctx, run, trace, Initial(state), Resting(s))
  }

  /** One way of feeding a message. */
  ghost predicate FedAlong<C(!new)>(ctx: ProtoCtx, run: Runner<C>, s: ProtoState<C>, m: N.Message, s': ProtoState<C>,
                                    order: seq<Predicate>, trace: seq<Work<C>>) {
    Orders(order, s.branches.Keys) && Drained(ctx, run, trace, FedWork(m, order, s), Resting(s'))
  }

  /** The component is fed a message that contradicts nothing it has received. */
  ghost predicate ProtoFeeds<C(!new)>(ctx: ProtoCtx, run: Runner<C>, s: ProtoState<C>, m: N.Message, s': ProtoState<C>) {
    !Contradicted(s.branches, m) && s'.log == s.log + {m} && exists order, trace :: FedAlong(ctx, run, s, m, s', order, trace)
  }

  lemma InitialOk<C(!new)>(ctx: ProtoCtx, run: Runner<C>, state: C)
    ensures WorkOk(ctx, {}, run, Initial(state))
  {
  }

  lemma ProtoStartsOk<C(!new)>(ctx: ProtoCtx, run: Runner<C>, state: C, s: ProtoState<C>)
    requires ctx.Valid() && Recording(run) && ProtoStarts(ctx, run, state, s)
    ensures ProtoOk(ctx, run, s)
  {
    hide WorkOk, IsDrain, Recording, ProtoCtx.Valid;
    var trace :| Drained(ctx, run, trace, Initial(state), Resting(s));
    DrainNonempty(ctx, run, trace);
    InitialOk(ctx, run, state);
    DrainOk(ctx, {}, run, trace, 0, |trace| - 1);
  }

  lemma DrainNonempty<C>(ctx: ProtoCtx, run: Runner<C>, trace: seq<Work<C>>)
    requires IsDrain(ctx, run, trace)
    ensures |trace| > 0
  {
  }

  lemma FedWorkOk<C(!new)>(ctx: ProtoCtx, run: Runner<C>, s: ProtoState<C>, m: N.Message, order: seq<Predicate>)
    requires ProtoOk(ctx, run, s) && Binary(ctx.channels, m.pred) && Orders(order, s.branches.Keys)
    ensures WorkOk(ctx, s.log + {m}, run, FedWork(m, order, s))
    ensures var w := FedWork(m, order, s); forall k <- s.branches :: Parted(m, k, s.branches[k], w.draining, w.output)
    ensures Separate(m, FedWork(m, order, s).draining, FedWork(m, order, s).output)
  {
    hide BranchOk, Binary, Recording, ProtoCtx.Valid, ResultsOk, Parted, PartAll, Separate, Accounted, EndsSubmitted;
    PartAllEnds(s.submitted, m, order, s.branches);
    PartAllAccounted(s.outgoing, m, order, s.branches);
    Relog(ctx, s.log, s.log + {m}, s.branches);
    PartAllParts(ctx, s.log + {m}, m, order, s.branches);
    PartAllSeparates(m, order, s.branches);
    assert Rest(s.branches, order) == map[];
    var (u, b) := PartAll(m, order, s.branches);
    PartDone(ctx, s.log + {m}, m, s.branches, u, b);
  }

  /** Feeding keeps every branch that has ended, with its state and its ports. */
  ghost predicate EndedKept<C>(s: ProtoState<C>, s': ProtoState<C>) {
    forall k <- s.branches | s.branches[k].ended :: k in s'.branches && Extends(s'.branches[k], s.branches[k])
  }

  lemma ProtoFeedsOk<C(!new)>(ctx: ProtoCtx, run: Runner<C>, s: ProtoState<C>, m: N.Message, s': ProtoState<C>)
    requires ProtoOk(ctx, run, s) && Binary(ctx.channels, m.pred) && ProtoFeeds(ctx, run, s, m, s')
    ensures ProtoOk(ctx, run, s') && EndedKept(s, s') && s.submitted <= s'.submitted && s.outgoing <= s'.outgoing
  {
    hide WorkOk, Orders, IsDrain, Recording, ProtoCtx.Valid, Binary, Contradicted, Parted, Separate, FedWork, Grown;
    var order, trace :| FedAlong(ctx, run, s, m, s', order, trace);
    FeedUnfolds(ctx, run, s, m, s', order, trace);
    FedWorkOk(ctx, run, s, m, order);
    var w: Work<C> := trace[0];
    DrainOk(ctx, s'.log, run, trace, 0, |trace| - 1);
    EndedParted(m, s.branches, w.draining, w.output);
    EndedStays(s.branches, w.output, s'.branches);
  }

  lemma FeedUnfolds<C(!new)>(ctx: ProtoCtx, run: Runner<C>, s: ProtoState<C>, m: N.Message, s': ProtoState<C>,
                             order: seq<Predicate>, trace: seq<Work<C>>)
    requires FedAlong(ctx, run, s, m, s', order, trace)
    ensures |trace| > 0 && IsDrain(ctx, run, trace) && trace[0] == FedWork(m, order, s) && trace[|trace| - 1] == Resting(s')
    ensures trace[0].submitted == s.submitted && trace[0].outgoing == s.outgoing && trace[0].swap == map[]
  {
    hide Turns;
  }

  /** When a message is fed, an end is lost only to a branch that came out earlier in the same drain: no branch
      that was there before the message can be in its place. */
  lemma LostWithinOneDrain<C(!new)>(ctx: ProtoCtx, run: Runner<C>, s: ProtoState<C>, m: N.Message, s': ProtoState<C>,
                                    order: seq<Predicate>, trace: seq<Work<C>>, i: nat, key: Predicate, p: Predicate)
    requires ProtoOk(ctx, run, s) && Binary(ctx.channels, m.pred) && FedAlong(ctx, run, s, m, s', order, trace) && i < |trace| - 1
    requires Runs(ctx, run, trace[i], key, trace[i + 1]) && p in RunOne(ctx, run, key, trace[i].draining[key]).submit
    ensures p in s'.submitted && p in s'.branches && (s'.branches[p].ended <==> !Occupied(trace[i].output, p))
    ensures !Occupied(trace[0].output, p)
  {
    assert key in trace[i].draining;
    hide WorkOk, Orders, IsDrain, Recording, ProtoCtx.Valid, Binary, FedWork, Runs, RunOne, Within, Parted;
    FeedUnfolds(ctx, run, s, m, s', order, trace);
    FedWorkOk(ctx, run, s, m, order);
    EndIsKeptExactlyWhen(ctx, s.log + {m}, run, trace, i, key, p);
    DrainAssumes(ctx, s.log + {m}, run, m.pred, trace, i);
    DrainOk(ctx, s.log + {m}, run, trace, 0, i);
    SubmitAssumes(ctx, s.log + {m}, run, m.pred, trace[0], trace[i], key, p);
  }

  lemma SubmitAssumes<C(!new)>(ctx: ProtoCtx, log: set<N.Message>, run: Runner<C>, base: Predicate, from: Work<C>, w: Work<C>, key: Predicate, p: Predicate)
    requires ctx.Valid() && Recording(run) && WorkOk(ctx, log, run, w) && Assumes(base, from, w) && key in w.draining
    requires p in RunOne(ctx, run, key, w.draining[key]).submit
    ensures Within(base, p)
  {
    hide Rank, Recording, RunOne, ResultsOk, BranchOk, Within, MessageOk, ProtoCtx.Valid;
    var t := RunOne(ctx, run, key, w.draining[key]);
    RunOneOk(ctx, log, run, key, w.draining[key]);
    var x :| x in t.out && x.0 == p && x.1.ended;
    WithinTrans(base, key, x.0);
  }

  // ---- the component ----

  /** How far the branches can still go at most. */
  ghost predicate Bounded<C>(ctx: ProtoCtx, branches: Branches<C>, bound: nat) {
    forall k <- branches :: Rank(ctx, k, branches[k]) < bound
  }

  /** The drainer in its loop: what it has done so far is a drain, and another `fuel` passes will do. */
  ghost predicate Draining<C(!new)>(ctx: ProtoCtx, log: set<N.Message>, run: Runner<C>, trace: seq<Work<C>>, from: Work<C>, w: Work<C>, fuel: nat) {
    Drained(ctx, run, trace, from, w) && WorkOk(ctx, log, run, w) && Bounded(ctx, w.draining, fuel + 1) && Bounded(ctx, w.swap, fuel)
  }

  lemma DrainBegins<C(!new)>(ctx: ProtoCtx, log: set<N.Message>, run: Runner<C>, w: Work<C>) returns (fuel: nat)
    requires WorkOk(ctx, log, run, w) && w.swap == map[]
    ensures Draining(ctx, log, run, [w], w, w, fuel)
  {
    hide WorkOk, Turns;
    fuel := |set p | p in ctx.vars :: ctx.vars[p]| + |ctx.vars.Keys|;
    forall k | k in w.draining ensures Rank(ctx, k, w.draining[k]) < fuel + 1 { RankBounded(ctx, k, w.draining[k]); }
  }

  lemma {:induction false} MergeAllBounded<C>(ctx: ProtoCtx, branches: Branches<C>, xs: seq<(Predicate, ProtoBranch<C>)>, bound: nat)
    requires Bounded(ctx, branches, bound) && forall x <- xs :: Rank(ctx, x.0, x.1) < bound
    ensures Bounded(ctx, MergeAll(branches, xs), bound)
    decreases |xs|
  {
    hide Bounded, Rank;
    if xs != [] {
      MergeBounded(ctx, branches, xs[0].0, xs[0].1, bound);
      MergeAllBounded(ctx, Merge(branches, xs[0].0, xs[0].1), xs[1..], bound);
    }
  }

  lemma MergeBounded<C>(ctx: ProtoCtx, branches: Branches<C>, key: Predicate, b: ProtoBranch<C>, bound: nat)
    requires Bounded(ctx, branches, bound) && Rank(ctx, key, b) < bound
    ensures Bounded(ctx, Merge(branches, key, b), bound)
  {
  }

  lemma TraceExtends<C>(ctx: ProtoCtx, run: Runner<C>, trace: seq<Work<C>>, from: Work<C>, w: Work<C>, w': Work<C>)
    requires Drained(ctx, run, trace, from, w) && Turns(ctx, run, w, w')
    ensures Drained(ctx, run, trace + [w'], from, w')
  {
    hide Turns;
    var more := trace + [w'];
    forall i | 0 <= i < |more| - 1 ensures Turns(ctx, run, more[i], more[i + 1]) {
      if i < |trace| - 1 { assert Turns(ctx, run, trace[i], trace[i + 1]); }
    }
  }

  lemma DrainsOne<C(!new)>(ctx: ProtoCtx, log: set<N.Message>, run: Runner<C>, trace: seq<Work<C>>, from: Work<C>, w: Work<C>, fuel: nat, key: Predicate)
    requires ctx.Valid() && Recording(run) && Draining(ctx, log, run, trace, from, w, fuel) && key in w.draining
    requires !RunOne(ctx, run, key, w.draining[key]).panic
    ensures var w' := Turned(ctx, run, w, key); Draining(ctx, log, run, trace + [w'], from, w', fuel)
    ensures |w.draining - {key}| < |w.draining|
  {
    hide Drained, Rank, Recording, RunOne, MergeAll, ResultsOk, BranchOk, Within, MessageOk, ProtoCtx.Valid;
    var t, w' := RunOne(ctx, run, key, w.draining[key]), Turned(ctx, run, w, key);
    RunOneOk(ctx, log, run, key, w.draining[key]);
    MergeAllBounded(ctx, w.swap, t.again, fuel);
    hide TurnOk;
    assert Runs(ctx, run, w, key, w');
    RunsOk(ctx, log, run, w, key, w');
    TraceExtends(ctx, run, trace, from, w, w');
    assert w.draining.Keys == (w.draining - {key}).Keys + {key};
  }

  lemma DrainSwaps<C(!new)>(ctx: ProtoCtx, log: set<N.Message>, run: Runner<C>, trace: seq<Work<C>>, from: Work<C>, w: Work<C>, fuel: nat)
    requires Draining(ctx, log, run, trace, from, w, fuel) && w.draining == map[] && w.swap != map[]
    ensures fuel > 0
    ensures var w' := w.(draining := w.swap, swap := map[]); Draining(ctx, log, run, trace + [w'], from, w', fuel - 1)
  {
    hide Drained, Rank, ResultsOk, BranchOk;
    var k :| k in w.swap;
    var w' := w.(draining := w.swap, swap := map[]);
    assert Swaps(w, w');
    TraceExtends(ctx, run, trace, from, w, w');
  }

  class BranchingProto<C(==, !new)> {
    const ctx: ProtoCtx
    const run: Runner<C>
    var branches: Branches<C>
    var submitted: set<Predicate>
    var outgoing: set<(Id, Predicate, Bytes)>
    ghost var log: set<N.Message>

    ghost function State(): ProtoState<C>
      reads this
    {
      ProtoState(branches, submitted, outgoing, log)
    }

    ghost predicate Valid()
      reads this
    {
      ProtoOk(ctx, run, State())
    }

    /** A component starts the round with a single branch that assumes nothing. */
    constructor (ctx: ProtoCtx, run: Runner<C>, state: C)
      requires ctx.Valid() && Recording(run)
      ensures Valid() && this.ctx == ctx && this.run == run && log == {} && submitted == {} && outgoing == {}
      ensures branches == map[map[] := ProtoBranch(state, {}, map[], false)]
    {
      this.ctx, this.run := ctx, run;
      branches := map[map[] := ProtoBranch(state, {}, map[], false)];
      submitted, outgoing, log := {}, {}, {};
    }

    /** Run one branch to its next blocker, sorting what comes of it into the next pass and the output. */
    method RunBranch(key: Predicate, b: ProtoBranch<C>, swap: Branches<C>, output: Branches<C>)
        returns (ok: bool, swap': Branches<C>, output': Branches<C>)
      requires ctx.Valid()
      modifies this`submitted, this`outgoing
      ensures ok <==> !RunOne(ctx, run, key, b).panic
      ensures ok ==> var t := RunOne(ctx, run, key, b);
        && swap' == MergeAll(swap, t.again) && output' == MergeAll(output, t.out)
        && submitted == old(submitted) + t.submit && outgoing == old(outgoing) + t.send
      ensures !ok ==> submitted == old(submitted) && outgoing == old(outgoing)
    {
      hide Merge, MergeAll, Settles, EndKey, RunOne, ProtoCtx.Valid;
      ok, swap', output' := true, swap, output;
      var r := run(b.state, b.inbox, b.did, key);
      var branch := b.(state := r.state, did := r.did);
      RunOneIs(ctx, run, key, b, r);
      MergeSingle(swap, key, branch);
      MergeSingle(output, key, branch);
      match r.blocker
      case Inconsistent =>
      case CouldntReadMsg(port) =>
        if port in b.inbox { return false, swap, output; }
        output' := InsertMerging(output, key, branch);
      case CouldntCheckFiring(port) =>
        if port !in ctx.vars || ctx.vars[port] in key { return false, swap, output; }
        var silent, firing := key[ctx.vars[port] := SILENT], key[ctx.vars[port] := FIRING];
        swap' := InsertMerging(swap, silent, branch);
        swap' := InsertMerging(swap', firing, branch);
        MergeTwo(swap, silent, branch, firing, branch);
      case PutMsg(port, payload) =>
        if port !in ctx.vars || port !in ctx.putters { return false, swap, output; }
        var v := ctx.vars[port];
        if v in key && key[v] == SILENT { return true, swap, output; }
        if port in branch.did { return false, swap, output; }
        var key1, branch1 := key[v := FIRING], branch.(did := branch.did + {port});
        outgoing := outgoing + {(port, key1, payload)};
        swap' := InsertMerging(swap, key1, branch1);
        MergeSingle(swap, key1, branch1);
      case SyncBlockEnd =>
        var settled, key1 := FinishKey(ctx, key, branch.did);
        if settled {
          var branch1 := branch.(ended := true);
          submitted := submitted + {key1};
          output' := InsertMerging(output, key1, branch1);
          MergeSingle(output, key1, branch1);
        }
    }

    /** Run all branches of `first` until each is blocked, ended or gone, adding them to `blocked`. */
    method Drain(first: Branches<C>, blocked: Branches<C>) returns (ok: bool, output: Branches<C>, ghost trace: seq<Work<C>>)
      requires ctx.Valid() && Recording(run) && WorkOk(ctx, log, run, Work(first, map[], blocked, submitted, outgoing))
      modifies this`submitted, this`outgoing
      ensures IsDrain(ctx, run, trace) && trace[0] == Work(first, map[], blocked, old(submitted), old(outgoing))
      ensures ok ==> trace[|trace| - 1] == Work(map[], map[], output, submitted, outgoing)
      ensures !ok ==> Panics(ctx, run, trace[|trace| - 1])
    {
      hide WorkOk, Draining, IsDrain, ProtoCtx.Valid, Recording, Panics, RunOne, MergeAll;
      var input := first;
      output := blocked;
      ghost var from := Work(first, map[], blocked, submitted, outgoing);
      trace := [from];
      ghost var fuel := DrainBegins(ctx, log, run, from);
      while input != map[]
        invariant Draining(ctx, log, run, trace, from, Work(input, map[], output, submitted, outgoing), fuel)
        decreases fuel, |input|
      {
        var swap;
        ok, swap, output, trace := Pass(input, output, trace, from, fuel);
        if !ok { return; }
        input := swap;
        if swap != map[] {
          ghost var w := Work(map[], swap, output, submitted, outgoing);
          DrainSwaps(ctx, log, run, trace, from, w, fuel);
          trace := trace + [w.(draining := swap, swap := map[])];
          fuel := fuel - 1;
        }
      }
      DrainingIs(ctx, log, run, trace, from, Work(input, map[], output, submitted, outgoing), fuel);
      ok := true;
    }

    /** One pass over the branches that can run; those that can go on form the next pass. */
    method Pass(input: Branches<C>, before: Branches<C>, ghost trace0: seq<Work<C>>, ghost from: Work<C>, ghost fuel: nat)
        returns (ok: bool, swap: Branches<C>, output: Branches<C>, ghost trace: seq<Work<C>>)
      requires ctx.Valid() && Recording(run)
      requires Draining(ctx, log, run, trace0, from, Work(input, map[], before, submitted, outgoing), fuel)
      modifies this`submitted, this`outgoing
      ensures ok ==> Draining(ctx, log, run, trace, from, Work(map[], swap, output, submitted, outgoing), fuel)
      ensures !ok ==> IsDrain(ctx, run, trace) && trace[0] == from && Panics(ctx, run, trace[|trace| - 1])
    {
      hide WorkOk, Draining, IsDrain, ProtoCtx.Valid, Recording, RunOne, MergeAll;
      var draining := input;
      swap, output, trace := map[], before, trace0;
      while draining != map[]
        invariant Draining(ctx, log, run, trace, from, Work(draining, swap, output, submitted, outgoing), fuel)
        decreases |draining|
      {
        var key :| key in draining;
        ghost var w := Work(draining, swap, output, submitted, outgoing);
        var fine, more, out := RunBranch(key, draining[key], swap, output);
        if !fine {
          DrainingIs(ctx, log, run, trace, from, w, fuel);
          assert Panics(ctx, run, w);
          return false, swap, output, trace;
        }
        DrainsOne(ctx, log, run, trace, from, w, fuel, key);
        trace := trace + [Turned(ctx, run, w, key)];
        swap, output := more, out;
        draining := draining - {key};
      }
      ok := true;
    }

    /** Run the component to its first blockers. */
    method Start() returns (ok: bool, ghost trace: seq<Work<C>>)
      requires ctx.Valid() && Recording(run) && submitted == {} && outgoing == {} && log == {}
      requires exists state :: branches == map[map[] := ProtoBranch(state, {}, map[], false)]
      modifies this`branches, this`submitted, this`outgoing
      ensures ok ==> Valid() && exists state :: old(branches) == Initial(state).draining && ProtoStarts(ctx, run, state, State())
    {
      hide WorkOk, IsDrain, ProtoCtx.Valid, Recording, Panics;
      ghost var state :| branches == map[map[] := ProtoBranch(state, {}, map[], false)];
      InitialOk(ctx, run, state);
      var output;
      ok, output, trace := Drain(branches, map[]);
      if ok {
        branches := output;
        assert Drained(ctx, run, trace, Initial(state), Resting(State()));
        ProtoStartsOk(ctx, run, state, State());
      }
    }

    /** Feed a message to every branch that accepts it, then run those that did. Fails iff the assertion on
        repeated payloads does, or one met while draining. */
    method FeedMsg(m: N.Message) returns (ok: bool, ghost order: seq<Predicate>, ghost trace: seq<Work<C>>)
      requires Valid() && Binary(ctx.channels, m.pred)
      modifies this`branches, this`submitted, this`outgoing, this`log
      ensures Contradicted(old(branches), m) ==> !ok
      ensures ok ==> forall k <- old(branches) |
        !old(branches)[k].ended && Consistent(k, m.pred) && m.getter in old(branches)[k].inbox :: old(branches)[k].inbox[m.getter] == m.payload
      ensures !ok && !Contradicted(old(branches), m) ==>
        && Orders(order, old(branches).Keys) && IsDrain(ctx, run, trace)
        && trace[0] == FedWork(m, order, old(State())) && Panics(ctx, run, trace[|trace| - 1])
      ensures ok ==> ProtoFeeds(ctx, run, old(State()), m, State()) && FedAlong(ctx, run, old(State()), m, State(), order, trace)
      ensures ok ==> Valid() && EndedKept(old(State()), State()) && old(submitted) <= submitted && old(outgoing) <= outgoing
    {
      hide WorkOk, IsDrain, Binary, Contradicted, Orders, FedWork, Panics, PartAll, EndedKept;
      var fine, unblocked, blocked;
      fine, unblocked, blocked, order := Partition(m);
      ContradictedMeans(branches, m);
      if !fine { return false, order, []; }
      log := log + {m};
      FedWorkOk(ctx, run, old(State()), m, order);
      FedWorkIs(m, order, old(State()), unblocked, blocked);
      var output;
      ok, output, trace := Drain(unblocked, blocked);
      if ok {
        branches := output;
        assert FedAlong(ctx, run, old(State()), m, State(), order, trace);
        ProtoFeedsOk(ctx, run, old(State()), m, State());
      }
    }

    /** Split the branches into those that receive the message, forking where needed, and the others. */
    method Partition(m: N.Message) returns (ok: bool, unblocked: Branches<C>, blocked: Branches<C>, ghost order: seq<Predicate>)
      ensures ok <==> !Contradicted(branches, m)
      ensures ok ==> Orders(order, branches.Keys) && (unblocked, blocked) == PartAll(m, order, branches)
    {
      hide Contradicted, PartedSoFar, Orders, Consistent, Within;
      unblocked, blocked, order := map[], map[], [];
      var draining := branches;
      PartedNone<C>(m, branches);
      while draining != map[]
        invariant PartedSoFar(m, branches, order, draining, unblocked, blocked)
        decreases |draining|
      {
        var key :| key in draining;
        PartedNext(m, branches, order, draining, unblocked, blocked, key);
        var branch := draining[key];
        draining, order := draining - {key}, order + [key];
        if branch.ended {
          blocked := InsertMerging(blocked, key, branch);
          continue;
        }
        var union := UnionOf(key, m.pred);
        if !union.Nonexistant? && m.getter in branch.inbox && branch.inbox[m.getter] != m.payload {
          return false, unblocked, blocked, order;
        }
        match union
        case Nonexistant =>
          blocked := InsertMerging(blocked, key, branch);
        case LatterNotFormer =>
          blocked := InsertMerging(blocked, key, branch);
          unblocked := InsertMerging(unblocked, m.pred, Fed(branch, m));
        case New(u) =>
          blocked := InsertMerging(blocked, key, branch);
          unblocked := InsertMerging(unblocked, u, Fed(branch, m));
        case _ =>
          unblocked := InsertMerging(unblocked, key, Fed(branch, m));
      }
      PartedAll(m, branches, order, unblocked, blocked);
      ok := true;
    }

    /** Commit an ended branch that the decision extends. */
    method CollapseWith(solution: Predicate) returns (r: Option<(C, set<Id>)>)
      requires Valid()
      ensures r.Some? <==> exists k <- branches :: branches[k].ended && Within(k, solution)
      ensures r.Some? ==> Committed(ctx, solution, r.value.1)
      ensures r.Some? ==> exists k <- branches ::
        branches[k].ended && r.value == (branches[k].state, branches[k].did) && N.Sound(log, solution, branches[k].inbox)
    {
      hide Within, Binary, N.Sound, ResultsOk, Recording, ProtoCtx.Valid;
      var todo := branches.Keys;
      while todo != {}
        invariant todo <= branches.Keys
        invariant forall k <- branches | k !in todo :: !(branches[k].ended && Within(k, solution))
        decreases todo
      {
        var key :| key in todo;
        if branches[key].ended && Within(key, solution) {
          assert BranchOk(ctx, log, key, branches[key]);
          CommittedBy(ctx, log, key, branches[key], solution);
          N.SoundMore(log, log, key, solution, branches[key].inbox);
          return Some((branches[key].state, branches[key].did));
        }
        todo := todo - {key};
      }
      r := None;
    }
  }

  lemma DrainingIs<C(!new)>(ctx: ProtoCtx, log: set<N.Message>, run: Runner<C>, trace: seq<Work<C>>, from: Work<C>, w: Work<C>, fuel: nat)
    requires Draining(ctx, log, run, trace, from, w, fuel)
    ensures IsDrain(ctx, run, trace) && trace[0] == from && trace[|trace| - 1] == w
  {
    hide WorkOk, Bounded;
  }

  /** A turn, blocker by blocker. */
  lemma RunOneIs<C>(ctx: ProtoCtx, run: Runner<C>, key: Predicate, b: ProtoBranch<C>, r: RunResult<C>)
    requires r == run(b.state, b.inbox, b.did, key)
    ensures var t, b1 := RunOne(ctx, run, key, b), b.(state := r.state, did := r.did);
      match r.blocker
      case Inconsistent => t == Turn(false, [], [], {}, {})
      case CouldntReadMsg(port) => t == Turn(port in b.inbox, [], [(key, b1)], {}, {})
      case CouldntCheckFiring(port) =>
        if port !in ctx.vars || ctx.vars[port] in key then t.panic
        else t == Turn(false, [(key[ctx.vars[port] := SILENT], b1), (key[ctx.vars[port] := FIRING], b1)], [], {}, {})
      case PutMsg(port, payload) =>
        if port !in ctx.vars || port !in ctx.putters then t.panic
        else if ctx.vars[port] in key && key[ctx.vars[port]] == SILENT then t == Turn(false, [], [], {}, {})
        else if port in r.did then t.panic
        else t == Turn(false, [(key[ctx.vars[port] := FIRING], b1.(did := r.did + {port}))], [], {},
                       {(port, key[ctx.vars[port] := FIRING], payload)})
      case SyncBlockEnd =>
        if Settles(ctx, EndKey(ctx, key), r.did) then t == Turn(false, [], [(EndKey(ctx, key), b1.(ended := true))], {EndKey(ctx, key)}, {})
        else t == Turn(false, [], [], {}, {})
  {
    hide Settles, EndKey;
  }

  lemma MergeTwo<C>(branches: Branches<C>, k1: Predicate, b1: ProtoBranch<C>, k2: Predicate, b2: ProtoBranch<C>)
    ensures MergeAll(branches, [(k1, b1), (k2, b2)]) == Merge(Merge(branches, k1, b1), k2, b2)
  {
    hide Merge;
    var xs := [(k1, b1), (k2, b2)];
    assert xs[1..] == [(k2, b2)];
    MergeSingle(Merge(branches, k1, b1), k2, b2);
  }

  lemma MergeSingle<C>(branches: Branches<C>, key: Predicate, b: ProtoBranch<C>)
    ensures MergeAll(branches, [(key, b)]) == Merge(branches, key, b) && MergeAll(branches, []) == branches
  {
    hide Merge;
    assert [(key, b)][1..] == [];
  }

  lemma FedWorkIs<C(!new)>(m: N.Message, order: seq<Predicate>, s: ProtoState<C>, unblocked: Branches<C>, blocked: Branches<C>)
    requires Orders(order, s.branches.Keys) && (unblocked, blocked) == PartAll(m, order, s.branches)
    ensures FedWork(m, order, s) == Work(unblocked, map[], blocked, s.submitted, s.outgoing)
  {
  }

  /** The state of the partitioning loop: the branches in `order` have been sorted. */
  ghost predicate PartedSoFar<C>(m: N.Message, branches: Branches<C>, order: seq<Predicate>, draining: Branches<C>,
                                 unblocked: Branches<C>, blocked: Branches<C>) {
    && Distinct(order) && (forall k <- order :: k in branches) && draining == Rest(branches, order)
    && (unblocked, blocked) == PartAll(m, order, branches) && forall k <- order :: !Contradicts(k, branches[k], m)
  }

  lemma PartedNone<C>(m: N.Message, branches: Branches<C>)
    ensures PartedSoFar(m, branches, [], branches, map[], map[])
  {
    assert Rest(branches, []) == branches;
  }

  lemma PartedNext<C>(m: N.Message, branches: Branches<C>, order: seq<Predicate>, draining: Branches<C>,
                      unblocked: Branches<C>, blocked: Branches<C>, key: Predicate)
    requires PartedSoFar(m, branches, order, draining, unblocked, blocked) && key in draining
    ensures |draining - {key}| < |draining|
    ensures if Contradicts(key, draining[key], m) then Contradicted(branches, m)
      else var (u, b) := PartOne(m, key, draining[key], unblocked, blocked);
        PartedSoFar(m, branches, order + [key], draining - {key}, u, b)
  {
    assert key !in order;
    hide PartOne, Contradicts, Rest;
    RestNext(branches, order, key);
    PartAllNext(m, branches, order, key);
    hide PartAll;
    DistinctNext(order, key);
  }

  lemma DistinctNext<T>(order: seq<T>, x: T)
    requires Distinct(order) && x !in order
    ensures Distinct(order + [x])
  {
  }

  lemma PartAllNext<C>(m: N.Message, branches: Branches<C>, order: seq<Predicate>, key: Predicate)
    requires key in branches && forall k <- order :: k in branches
    ensures forall k <- order + [key] :: k in branches
    ensures var (u, b) := PartAll(m, order, branches); PartAll(m, order + [key], branches) == PartOne(m, key, branches[key], u, b)
  {
    hide PartOne;
    var more := order + [key];
    assert more[..|more| - 1] == order;
  }

  lemma PartedAll<C>(m: N.Message, branches: Branches<C>, order: seq<Predicate>, unblocked: Branches<C>, blocked: Branches<C>)
    requires PartedSoFar(m, branches, order, map[], unblocked, blocked)
    ensures !Contradicted(branches, m) && Orders(order, branches.Keys) && (unblocked, blocked) == PartAll(m, order, branches)
  {
    hide PartAll, Contradicts;
    forall k | k in branches ensures k in order { assert k !in Rest(branches, order); }
  }
}
