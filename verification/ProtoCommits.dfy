/** When `collapse_with` finds a branch to commit: for a component that runs a program, no speculation is lost, but a
    branch may be left behind that has all the messages it needs and was not run again. */
module ProtoCommits {
  import opened Network
  import opened Predicates
  import opened Proto
  import opened ProtoRuns
  import opened Programs
  import opened ProtoPaths
  import N = Native

  /** Every message that is sent under a predicate within `q` has been received. */
  ghost predicate HasAll(log: set<N.Message>, q: Predicate, inbox: map<Id, Bytes>) {
    forall m <- log | Within(m.pred, q) :: m.getter in inbox
  }

  /** The branch assumes no more than `q`, and has ended or has every message it may receive. */
  ghost predicate Current<C>(log: set<N.Message>, q: Predicate, k: Predicate, b: ProtoBranch<C>) {
    Within(k, q) && (b.ended || HasAll(log, q, b.inbox))
  }

  ghost predicate HasCurrent<C>(log: set<N.Message>, q: Predicate, branches: Branches<C>) {
    exists k <- branches :: Current(log, q, k, branches[k])
  }

  /** Some branch, to be run or at rest, is current for `q`. */
  ghost predicate WorkCurrent<C>(log: set<N.Message>, q: Predicate, w: Work<C>) {
    HasCurrent(log, q, w.draining) || HasCurrent(log, q, w.swap) || HasCurrent(log, q, w.output)
  }

  /** Unless the program cannot end under `q`, there is a current branch. */
  ghost predicate Speculated<C(!new)>(a: Agent<C>, log: set<N.Message>, q: Predicate, w: Work<C>) {
    Dead(a.ctx, If(a, log, q), a.start) || WorkCurrent(log, q, w)
  }

  /** No speculation has been lost. */
  ghost predicate Complete<C(!new)>(a: Agent<C>, s: ProtoState<C>) {
    forall q | Binary(a.ctx.channels, q) :: Speculated(a, s.log, q, Resting(s))
  }

  // ---- merging ----

  lemma MergeCurrent<C>(log: set<N.Message>, q: Predicate, branches: Branches<C>, key: Predicate, b: ProtoBranch<C>)
    ensures HasCurrent(log, q, branches) ==> HasCurrent(log, q, Merge(branches, key, b))
    ensures Within(key, q) && HasAll(log, q, b.inbox) ==> HasCurrent(log, q, Merge(branches, key, b))
  {
    var more := Merge(branches, key, b);
    if HasCurrent(log, q, branches) {
      var k :| k in branches && Current(log, q, k, branches[k]);
      assert Current(log, q, k, more[k]);
    }
    if Within(key, q) && HasAll(log, q, b.inbox) { assert Current(log, q, key, more[key]); }
  }

  lemma {:induction false} MergeAllCurrent<C>(log: set<N.Message>, q: Predicate, branches: Branches<C>, xs: seq<(Predicate, ProtoBranch<C>)>)
    ensures HasCurrent(log, q, branches) ==> HasCurrent(log, q, MergeAll(branches, xs))
    ensures (exists x <- xs :: Within(x.0, q) && HasAll(log, q, x.1.inbox)) ==> HasCurrent(log, q, MergeAll(branches, xs))
    decreases |xs|
  {
    hide HasCurrent, HasAll, Within, Merge;
    if xs != [] {
      MergeCurrent(log, q, branches, xs[0].0, xs[0].1);
      MergeAllCurrent(log, q, Merge(branches, xs[0].0, xs[0].1), xs[1..]);
      assert forall x <- xs :: x == xs[0] || x in xs[1..];
    }
  }

  // ---- one turn ----

  /** The program cannot get past here under `q`. */
  lemma StopsHere<C(!new)>(a: Agent<C>, log: set<N.Message>, key: Predicate, q: Predicate, inbox: map<Id, Bytes>, r: RunResult<C>)
    requires Blocked(a, log, key, inbox, r) && Within(key, q) && Stops(a.ctx, If(a, log, q), Config(r.state, r.did))
    ensures Dead(a.ctx, If(a, log, q), a.start)
  {
    hide Reaches, Within, Stops, Advance;
    var n: nat :| Reaches(If(a, log, key), Config(a.start, {}), Config(r.state, r.did), n);
    ReachesMore(If(a, log, key), If(a, log, q), Config(a.start, {}), Config(r.state, r.did), n);
  }

  /** If the program ends here in agreement with `q`, the branch ends within `q`. */
  lemma EndsWithin(ctx: ProtoCtx, key: Predicate, q: Predicate, did: set<Id>)
    requires ctx.Valid() && Within(key, q) && Binary(ctx.channels, q) && AllFire(ctx, key, did) && Settles(ctx, q, did)
    ensures Within(EndKey(ctx, key), q) && Settles(ctx, EndKey(ctx, key), did)
  {
    var end := EndKey(ctx, key);
    forall v | v in end ensures v in q && q[v] == end[v] {
      if v !in key {
        var p :| p in ctx.owned && p in ctx.vars && ctx.vars[p] == v;
        assert p !in did;
      }
    }
  }

  /** A current branch in its turn leads to a current branch, unless the program cannot end under `q`. */
  lemma TurnCurrent<C(!new)>(a: Agent<C>, log: set<N.Message>, run: Runner<C>, key: Predicate, b: ProtoBranch<C>, q: Predicate)
    requires a.ctx.Valid() && Binary(a.ctx.channels, q) && Within(key, q) && HasAll(log, q, b.inbox)
    requires Blocked(a, log, key, b.inbox, run(b.state, b.inbox, b.did, key)) && !RunOne(a.ctx, run, key, b).panic
    ensures var t := RunOne(a.ctx, run, key, b);
      || Dead(a.ctx, If(a, log, q), a.start)
      || (exists x <- t.again :: Within(x.0, q) && HasAll(log, q, x.1.inbox))
      || (exists x <- t.out :: Within(x.0, q) && HasAll(log, q, x.1.inbox))
  {
    var r, t := run(b.state, b.inbox, b.did, key), RunOne(a.ctx, run, key, b);
    RunOneIs(a.ctx, run, key, b, r);
    BlockedBy(a, log, key, b.inbox, r);
    assert AllFire(a.ctx, key, r.did);
    hide RunOne, Blocked, Dead, HasAll, EndKey, Settles, AllFire;
    var w, c := If(a, log, q), Config(r.state, r.did);
    if Stops(a.ctx, w, c) {
      StopsHere(a, log, key, q, b.inbox, r);
    } else {
      match r.blocker
      case Inconsistent =>
      case CouldntReadMsg(port) => assert t.out[0].0 == key;
      case CouldntCheckFiring(port) =>
        var v := a.ctx.vars[port];
        assert q[v] == FIRING || q[v] == SILENT;
        assert Within(t.again[0].0, q) || Within(t.again[1].0, q);
      case PutMsg(port, payload) => assert Within(t.again[0].0, q);
      case SyncBlockEnd =>
        EndsWithin(a.ctx, key, q, r.did);
        assert Within(t.out[0].0, q);
    }
  }

  lemma InTurn<C(!new)>(a: Agent<C>, log: set<N.Message>, run: Runner<C>, w: Work<C>, key: Predicate)
    requires WorkOk(a.ctx, log, run, w) && WorkOnWay(a, log, w) && key in w.draining
    ensures var b := w.draining[key]; N.Sound(log, key, b.inbox) && PathOk(a, log, key, b) && !b.ended
  {
    hide PathOk, N.Sound, Binary, Settles, ResultsOk, WorkAccounted, OutcomesOk, AtRest;
    assert BranchOk(a.ctx, log, key, w.draining[key]);
  }

  lemma RunsCurrent<C(!new)>(a: Agent<C>, log: set<N.Message>, run: Runner<C>, w: Work<C>, key: Predicate, w': Work<C>, q: Predicate)
    requires a.ctx.Valid() && Follows(a.prog, a.ctx.vars, run) && AllLabelled(a.ctx, log)
    requires WorkOk(a.ctx, log, run, w) && WorkOnWay(a, log, w) && Runs(a.ctx, run, w, key, w')
    requires Binary(a.ctx.channels, q) && WorkCurrent(log, q, w)
    ensures Speculated(a, log, q, w')
  {
    hide ProtoCtx.Valid, Follows, AllLabelled, WorkOk, WorkOnWay, Dead, RunOne, MergeAll, Current, Binary;
    var t := RunOne(a.ctx, run, key, w.draining[key]);
    MergeAllCurrent(log, q, w.swap, t.again);
    MergeAllCurrent(log, q, w.output, t.out);
    if HasCurrent(log, q, w.draining) {
      var k :| k in w.draining && Current(log, q, k, w.draining[k]);
      if k == key {
        OwnTurnCurrent(a, log, run, w, key, q);
      } else {
        assert k in w'.draining && w'.draining[k] == w.draining[k];
      }
    }
  }

  lemma OwnTurnCurrent<C(!new)>(a: Agent<C>, log: set<N.Message>, run: Runner<C>, w: Work<C>, key: Predicate, q: Predicate)
    requires a.ctx.Valid() && Follows(a.prog, a.ctx.vars, run) && AllLabelled(a.ctx, log)
    requires WorkOk(a.ctx, log, run, w) && WorkOnWay(a, log, w) && key in w.draining && !RunOne(a.ctx, run, key, w.draining[key]).panic
    requires Binary(a.ctx.channels, q) && Current(log, q, key, w.draining[key])
    ensures var t := RunOne(a.ctx, run, key, w.draining[key]);
      || Dead(a.ctx, If(a, log, q), a.start)
      || HasCurrent(log, q, MergeAll(w.swap, t.again)) || HasCurrent(log, q, MergeAll(w.output, t.out))
  {
    var b := w.draining[key];
    InTurn(a, log, run, w, key);
    hide ProtoCtx.Valid, Follows, AllLabelled, WorkOk, WorkOnWay, PathOk, Dead, RunOne, MergeAll, HasAll, Binary, Within, N.Sound, Blocked, HasCurrent;
    RunBlocks(a, log, run, key, b);
    TurnCurrent(a, log, run, key, b, q);
    var t := RunOne(a.ctx, run, key, b);
    MergeAllCurrent(log, q, w.swap, t.again);
    MergeAllCurrent(log, q, w.output, t.out);
  }

  lemma TurnsCurrent<C(!new)>(a: Agent<C>, log: set<N.Message>, run: Runner<C>, w: Work<C>, w': Work<C>, q: Predicate)
    requires a.ctx.Valid() && Follows(a.prog, a.ctx.vars, run) && AllLabelled(a.ctx, log)
    requires WorkOk(a.ctx, log, run, w) && WorkOnWay(a, log, w) && Turns(a.ctx, run, w, w')
    requires Binary(a.ctx.channels, q) && Speculated(a, log, q, w)
    ensures Speculated(a, log, q, w')
  {
    hide ProtoCtx.Valid, Follows, AllLabelled, WorkOk, WorkOnWay, Dead, Runs, Current, Binary;
    if !Swaps(w, w') && WorkCurrent(log, q, w) {
      var key :| Runs(a.ctx, run, w, key, w');
      RunsCurrent(a, log, run, w, key, w', q);
    }
  }

  lemma {:induction false} DrainCurrent<C(!new)>(a: Agent<C>, log: set<N.Message>, run: Runner<C>, trace: seq<Work<C>>, k: nat, q: Predicate)
    requires a.ctx.Valid() && Follows(a.prog, a.ctx.vars, run) && AllLabelled(a.ctx, log)
    requires IsDrain(a.ctx, run, trace) && k < |trace| && WorkOk(a.ctx, log, run, trace[0]) && WorkOnWay(a, log, trace[0])
    requires Binary(a.ctx.channels, q) && Speculated(a, log, q, trace[0])
    ensures Speculated(a, log, q, trace[k])
    decreases k
  {
    hide WorkOk, WorkOnWay, Turns, ProtoCtx.Valid, Follows, AllLabelled, Speculated, Binary;
    if k > 0 {
      DrainCurrent(a, log, run, trace, k - 1, q);
      DrainOnWay(a, log, run, trace, k - 1);
      assert Turns(a.ctx, run, trace[k - 1], trace[k - 1 + 1]);
      TurnsCurrent(a, log, run, trace[k - 1], trace[k], q);
    }
  }

  // ---- starting and feeding ----

  lemma StartsComplete<C(!new)>(a: Agent<C>, run: Runner<C>, s: ProtoState<C>)
    requires a.ctx.Valid() && Follows(a.prog, a.ctx.vars, run) && ProtoStarts(a.ctx, run, a.start, s)
    ensures Complete(a, s)
  {
    hide WorkOk, WorkOnWay, IsDrain, ProtoCtx.Valid, Follows, Binary, Speculated;
    var trace :| Drained(a.ctx, run, trace, Initial(a.start), Resting(s));
    DrainNonempty(a.ctx, run, trace);
    InitialOk(a.ctx, run, a.start);
    InitialOnWay(a);
    forall q | Binary(a.ctx.channels, q) ensures Speculated(a, s.log, q, Resting(s)) {
      InitialCurrent(a, q);
      DrainCurrent(a, {}, run, trace, |trace| - 1, q);
    }
  }

  lemma InitialCurrent<C(!new)>(a: Agent<C>, q: Predicate)
    ensures Speculated(a, {}, q, Initial(a.start))
  {
    hide Dead;
    var w := Initial(a.start);
    assert map[] in w.draining && Current({}, q, map[], w.draining[map[]]);
  }

  /** A current branch that is fed leaves a current branch. */
  lemma FedCurrent<C>(log: set<N.Message>, m: N.Message, q: Predicate, k: Predicate, b: ProtoBranch<C>, unblocked: Branches<C>, blocked: Branches<C>)
    requires Current(log, q, k, b) && Parted(m, k, b, unblocked, blocked)
    ensures HasCurrent(log + {m}, q, unblocked) || HasCurrent(log + {m}, q, blocked)
  {
    if !b.ended && Within(m.pred, q) {
      assert Consistent(k, m.pred) && Within(k + m.pred, q);
      assert Current(log + {m}, q, k + m.pred, unblocked[k + m.pred]);
    } else {
      if !b.ended && Consistent(k, m.pred) { NotWithin(k, m.pred, q); }
      assert k in blocked && Current(log + {m}, q, k, blocked[k]);
    }
  }

  lemma NotWithin(k: Predicate, p: Predicate, q: Predicate)
    requires Within(k, q) && !Within(p, q)
    ensures k + p != k
  {
    var v :| v in p && !(v in q && q[v] == p[v]);
    assert (k + p)[v] == p[v];
  }

  lemma FeedsComplete<C(!new)>(a: Agent<C>, run: Runner<C>, s: ProtoState<C>, m: N.Message, s': ProtoState<C>)
    requires AgentOk(a, run, s) && Binary(a.ctx.channels, m.pred) && Labelled(a.ctx, m) && ProtoFeeds(a.ctx, run, s, m, s') && Complete(a, s)
    ensures Complete(a, s')
  {
    hide WorkOk, WorkOnWay, Orders, IsDrain, Recording, ProtoCtx.Valid, Binary, Contradicted, Parted, Separate, FedWork, Follows, Labelled,
      EndedKept, Speculated;
    var order, trace :| FedAlong(a.ctx, run, s, m, s', order, trace);
    FeedUnfolds(a.ctx, run, s, m, s', order, trace);
    FedWorkOk(a.ctx, run, s, m, order);
    FedWorkOnWay(a, run, s, m, order);
    forall q | Binary(a.ctx.channels, q) ensures Speculated(a, s'.log, q, Resting(s')) {
      FedSpeculated(a, s, m, q, trace[0]);
      DrainCurrent(a, s'.log, run, trace, |trace| - 1, q);
    }
  }

  lemma FedSpeculated<C(!new)>(a: Agent<C>, s: ProtoState<C>, m: N.Message, q: Predicate, w: Work<C>)
    requires Speculated(a, s.log, q, Resting(s)) && forall k <- s.branches :: Parted(m, k, s.branches[k], w.draining, w.output)
    ensures Speculated(a, s.log + {m}, q, w)
  {
    hide Dead, Parted, Current;
    if Dead(a.ctx, If(a, s.log, q), a.start) {
      DeadMore(a.ctx, If(a, s.log, q), s.log + {m}, a.start);
    } else {
      var k :| k in s.branches && Current(s.log, q, k, s.branches[k]);
      FedCurrent(s.log, m, q, k, s.branches[k], w.draining, w.output);
    }
  }

  // ---- what a decision finds ----

  /** A branch that has not ended and waits for a message it has. Draining leaves none behind except by merging: the
      branch was at rest under its key when another brought the message there. */
  ghost predicate Overtaken<C>(a: Agent<C>, b: ProtoBranch<C>) {
    !b.ended && a.prog.op(b.state).Get? && a.prog.op(b.state).port in b.inbox
  }

  ghost predicate HasOvertaken<C>(a: Agent<C>, branches: Branches<C>, q: Predicate) {
    exists k <- branches :: Overtaken(a, branches[k]) && Within(k, q)
  }

  /** A branch ends within `q` only if the program does. */
  lemma CommitIsJustified<C(!new)>(a: Agent<C>, run: Runner<C>, s: ProtoState<C>, q: Predicate)
    requires AgentOk(a, run, s) && CanCommit(s.branches, q)
    ensures Ends(a.ctx, If(a, s.log, q), a.start)
  {
    hide Follows, AllLabelled, ResultsOk, WorkAccounted, Reaches, Within, Recording, ProtoCtx.Valid, N.Sound, Binary, Settles;
    var k :| k in s.branches && s.branches[k].ended && Within(k, q);
    var b := s.branches[k];
    assert BranchOk(a.ctx, s.log, k, b) && PathOk(a, s.log, k, b);
    var n: nat, past :| Reaches(If(a, s.log, k), Config(a.start, {}), Config(b.state, past), n) && past <= b.did <= past + Pending(a.prog, b.state);
    assert past == b.did && a.prog.op(Config(b.state, past).state).End?;
    assert Ends(a.ctx, If(a, s.log, k), a.start);
    EndsMore(a.ctx, If(a, s.log, k), If(a, s.log, q), a.start);
  }

  /** A current branch, where the program ends, has ended or been overtaken. */
  lemma CurrentEnds<C(!new)>(a: Agent<C>, run: Runner<C>, s: ProtoState<C>, q: Predicate, k: Predicate)
    requires AgentOk(a, run, s) && Coherent(s.log) && Ends(a.ctx, If(a, s.log, q), a.start)
    requires k in s.branches && Current(s.log, q, k, s.branches[k])
    ensures s.branches[k].ended || Overtaken(a, s.branches[k])
  {
    hide Follows, AllLabelled, ResultsOk, WorkAccounted, Reaches, Recording, ProtoCtx.Valid, BranchOk, Ends, Coherent, Within;
    var b := s.branches[k];
    if !b.ended {
      assert PathOk(a, s.log, k, b);
      var n: nat, past :| Reaches(If(a, s.log, k), Config(a.start, {}), Config(b.state, past), n) && past <= b.did <= past + Pending(a.prog, b.state);
      ReachesMore(If(a, s.log, k), If(a, s.log, q), Config(a.start, {}), Config(b.state, past), n);
      WaitIsAnswered(a.ctx, If(a, s.log, q), a.start, Config(b.state, past), n);
      var port := a.prog.op(b.state).port;
      var bytes :| Sent(s.log, q, port, bytes);
      var m :| m in s.log && m.getter == port && m.payload == bytes && Within(m.pred, q);
    }
  }

  /** Where the program ends, there is a branch to commit, or one that was overtaken. */
  lemma CommitsOrOvertaken<C(!new)>(a: Agent<C>, run: Runner<C>, s: ProtoState<C>, q: Predicate)
    requires AgentOk(a, run, s) && Complete(a, s) && Coherent(s.log) && Binary(a.ctx.channels, q) && Ends(a.ctx, If(a, s.log, q), a.start)
    ensures CanCommit(s.branches, q) || HasOvertaken(a, s.branches, q)
  {
    hide AgentOk, Dead, Ends, Coherent, Binary, Overtaken, HasAll;
    if Dead(a.ctx, If(a, s.log, q), a.start) {
      DeadDoesNotEnd(a.ctx, If(a, s.log, q), a.start);
    } else {
      assert Speculated(a, s.log, q, Resting(s));
      var k :| k in s.branches && Current(s.log, q, k, s.branches[k]);
      CurrentEnds(a, run, s, q, k);
    }
  }

  /** Unless a branch within `q` was overtaken, `collapse_with` finds a branch for `q` if and only if the program ends
      where `q` comes true. */
  lemma CommitsExactlyWhen<C(!new)>(a: Agent<C>, run: Runner<C>, s: ProtoState<C>, q: Predicate)
    requires AgentOk(a, run, s) && Complete(a, s) && Coherent(s.log) && Binary(a.ctx.channels, q) && !HasOvertaken(a, s.branches, q)
    ensures CanCommit(s.branches, q) <==> Ends(a.ctx, If(a, s.log, q), a.start)
  {
    hide AgentOk, Complete, Ends, Coherent, Binary, HasOvertaken, CanCommit;
    if CanCommit(s.branches, q) { CommitIsJustified(a, run, s, q); }
    if Ends(a.ctx, If(a, s.log, q), a.start) { CommitsOrOvertaken(a, run, s, q); }
  }

  /** A solution that was submitted finds a branch to commit, unless one within it was overtaken. */
  lemma SubmittedCommits<C(!new)>(a: Agent<C>, run: Runner<C>, s: ProtoState<C>, p: Predicate)
    requires AgentOk(a, run, s) && Complete(a, s) && Coherent(s.log) && p in s.submitted
    ensures CanCommit(s.branches, p) || HasOvertaken(a, s.branches, p)
  {
    assert EndsUnder(a, s.log, p);
    hide AgentOk, Complete, Ends, Coherent, Binary, HasOvertaken, CanCommit;
    CommitsOrOvertaken(a, run, s, p);
  }

  /** The component has submitted a solution within `q`. */
  ghost predicate Offers<C>(s: ProtoState<C>, q: Predicate) {
    exists p <- s.submitted :: Within(p, q)
  }

  lemma EndedIsSubmitted<C(!new)>(a: Agent<C>, run: Runner<C>, s: ProtoState<C>, q: Predicate)
    requires AgentOk(a, run, s) && CanCommit(s.branches, q)
    ensures Offers(s, q)
  {
    hide Follows, AllLabelled, ResultsOk, WorkAccounted, Within, Recording, ProtoCtx.Valid, BranchOk, WorkOnWay;
    var k :| k in s.branches && s.branches[k].ended && Within(k, q);
    assert EndsSubmitted(s.branches, s.submitted);
  }

  /** Unless a branch within `q` was overtaken, a solution within `q` has been submitted if and only if the program ends
      where `q` comes true. */
  lemma SubmitsExactlyWhen<C(!new)>(a: Agent<C>, run: Runner<C>, s: ProtoState<C>, q: Predicate)
    requires AgentOk(a, run, s) && Complete(a, s) && Coherent(s.log) && Binary(a.ctx.channels, q) && !HasOvertaken(a, s.branches, q)
    ensures Offers(s, q) <==> Ends(a.ctx, If(a, s.log, q), a.start)
  {
    hide ProtoOk, Follows, AllLabelled, PathsOk, AtRest, PutOnWay, Complete, Ends, Coherent, Binary, HasOvertaken, CanCommit, Within;
    if Offers(s, q) {
      var p :| p in s.submitted && Within(p, q);
      assert EndsUnder(a, s.log, p);
      EndsMore(a.ctx, If(a, s.log, p), If(a, s.log, q), a.start);
    }
    hide AgentOk;
    CommitsExactlyWhen(a, run, s, q);
    if CanCommit(s.branches, q) { EndedIsSubmitted(a, run, s, q); }
  }
}
