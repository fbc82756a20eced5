/** The components of a connector in the course of a round: the native and the protocol components, as values. */
module Components {
  import opened Network
  import opened Predicates
  import N = Native
  import P = Proto
  import R = ProtoRuns
  import A = ProtoPaths
  import C = ProtoCommits
  import Programs

  /** The memory of a protocol program, which is opaque here. */
  type Memory(==, !new)

  datatype Component =
    | Native(nctx: N.NativeCtx, nst: N.NativeState)
    | Protocol(agent: A.Agent<Memory>, run: P.Runner<Memory>, pst: R.ProtoState<Memory>)
  {
    function Submitted(): set<Predicate> { if Native? then nst.submitted else pst.submitted }

    function Outgoing(): set<(Id, Predicate, seq<nat>)> { if Native? then nst.outgoing else pst.outgoing }

    function Log(): set<N.Message> { if Native? then nst.log else pst.log }

    /** The keys of the branches that have ended. */
    ghost predicate Ended(k: Predicate) {
      if Native? then k in nst.branches && nst.branches[k].toGet == {} else k in pst.branches && pst.branches[k].ended
    }

    /** What the branch under `k` has received. */
    ghost function Received(k: Predicate): map<Id, seq<nat>> {
      if Native? then if k in nst.branches then nst.branches[k].gotten else map[]
      else if k in pst.branches then pst.branches[k].inbox else map[]
    }

    /** The branch under `k` has put or got on this port. */
    ghost predicate Used(k: Predicate, p: Id) {
      if Native? then
        && k in nst.branches && nst.branches[k].index < |nctx.batches|
        && (p in nctx.batches[nst.branches[k].index].toPut || p in nst.branches[k].gotten)
      else k in pst.branches && p in pst.branches[k].did
    }

    /** The branch under `k` has put this payload on this port. */
    ghost predicate Puts(k: Predicate, p: Id, bytes: seq<nat>) {
      if Native? then
        && k in nst.branches && nst.branches[k].index < |nctx.batches|
        && p in nctx.batches[nst.branches[k].index].toPut && nctx.batches[nst.branches[k].index].toPut[p] == bytes
        && exists pred :: (p, pred, bytes) in nst.outgoing && Within(pred, k)
      else k in pst.branches && p in pst.branches[k].did && exists pred :: (p, pred, bytes) in pst.outgoing && Within(pred, k)
    }

    ghost predicate IsPutter(p: Id) {
      if Native? then p !in nctx.getters else p in agent.ctx.putters
    }

    ghost predicate HasBranch(k: Predicate) {
      if Native? then k in nst.branches else k in pst.branches
    }

    ghost function Vars(): map<Id, Id> { if Native? then nctx.vars else agent.ctx.vars }

    ghost function Owned(): set<Id> { if Native? then nctx.vars.Keys else agent.ctx.owned }
  }

  ghost predicate Ok(c: Component) {
    match c
    case Native(ctx, s) => N.NativeOk(ctx, s)
    case Protocol(agent, run, s) => A.AgentOk(agent, run, s) && C.Complete(agent, s)
  }

  /** The component has just been made ready for the round. */
  ghost predicate Starts(c: Component) {
    match c
    case Native(ctx, s) => ctx.Valid() && N.NativeStarts(ctx, s)
    case Protocol(agent, run, s) =>
      agent.ctx.Valid() && Programs.Follows(agent.prog, agent.ctx.vars, run) && R.ProtoStarts(agent.ctx, run, agent.start, s)
  }

  /** The component is fed a message. */
  ghost predicate Feeds(c: Component, m: N.Message, c': Component) {
    match c
    case Native(ctx, s) => c'.Native? && c'.nctx == ctx && m.getter in ctx.getters && N.NativeFeeds(ctx, s, m, c'.nst)
    case Protocol(agent, run, s) => c'.Protocol? && c'.agent == agent && c'.run == run && R.ProtoFeeds(agent.ctx, run, s, m, c'.pst)
  }

  /** The message is for a getter of the component, whose variable it assumes to fire. */
  ghost predicate Labelled(c: Component, m: N.Message) {
    c.Native? || A.Labelled(c.agent.ctx, m)
  }

  /** The component knows which variables belong to channels. */
  ghost predicate KnowsChannels(c: Component, channels: iset<Id>) {
    if c.Native? then c.nctx.nativeVar !in channels else c.agent.ctx.channels == channels
  }

  lemma StartsOk(c: Component)
    requires Starts(c)
    ensures Ok(c) && c.Log() == {}
  {
    hide N.NativeOk, A.AgentOk, C.Complete, N.NativeCtx.Valid, P.ProtoCtx.Valid, Programs.Follows, N.Translated, R.IsDrain;
    match c
    case Native(ctx, s) => N.NativeStartsOk(ctx, s);
    case Protocol(agent, run, s) =>
      A.AgentStartsOk(agent, run, s);
      C.StartsComplete(agent, run, s);
  }

  lemma FeedsOk(c: Component, m: N.Message, c': Component, channels: iset<Id>)
    requires Ok(c) && Feeds(c, m, c') && Binary(channels, m.pred) && KnowsChannels(c, channels) && Labelled(c, m)
    ensures Ok(c') && c'.Log() == c.Log() + {m} && c.Submitted() <= c'.Submitted() && c.Outgoing() <= c'.Outgoing()
    ensures c'.Vars() == c.Vars() && c'.Owned() == c.Owned()
  {
    match c
    case Native(ctx, s) =>
      hide N.NativeOk, N.Contradicted, N.FeedAll, Orders;
      N.NativeFeedsOk(ctx, s, m, c'.nst);
    case Protocol(agent, run, s) =>
      hide R.ProtoOk, R.Contradicted, R.FedAlong, Orders, C.Complete, A.AllLabelled, A.Labelled, A.WorkOnWay, Programs.Follows;
      A.AgentFeedsOk(agent, run, s, m, c'.pst);
      C.FeedsComplete(agent, run, s, m, c'.pst);
      R.ProtoFeedsOk(agent.ctx, run, s, m, c'.pst);
  }

  /** What a component sends: on its own ports, and binary where channels are concerned. */
  lemma SendsOk(c: Component, channels: iset<Id>, o: (Id, Predicate, seq<nat>))
    requires Ok(c) && KnowsChannels(c, channels) && o in c.Outgoing() && (c.Protocol? ==> R.PutsOwn(c.agent.ctx, c.run))
    ensures o.0 in c.Owned() && Binary(channels, o.1)
    ensures o.0 in c.Vars() && c.IsPutter(o.0) && Programs.FiresIn(c.Vars(), o.1, o.0)
  {
    hide N.Complete, N.Kept, N.Sound, A.WorkOnWay, A.AllLabelled, Programs.Follows, C.Complete, R.WorkAccounted;
    match c
    case Native(ctx, s) =>
      assert N.IsPut(ctx, s.branches, o) && N.Minimal(ctx, o.1);
      assert N.BranchOk(ctx, s.log, o.1, s.branches[o.1]);
      NativeKeyBinary(ctx, s.branches[o.1].index, o.1, channels);
      assert ctx.batches[s.branches[o.1].index] in ctx.batches;
    case Protocol(agent, run, s) =>
      assert P.MessageOk(agent.ctx, o);
  }

  lemma NativeKeyBinary(ctx: N.NativeCtx, i: nat, key: Predicate, channels: iset<Id>)
    requires N.Accurate(ctx, i, key) && N.Minimal(ctx, key) && ctx.nativeVar !in channels
    ensures Binary(channels, key)
  {
  }

  lemma OwnedHasVar(c: Component, p: Id)
    requires Ok(c) && p in c.Owned()
    ensures p in c.Vars()
  {
    hide N.BranchesOk, N.Complete, N.Kept, N.OnlyPuts, N.SentMinimal, R.WorkOk, A.WorkOnWay, A.AllLabelled, Programs.Follows, C.Complete;
  }

  /** An ended branch within a decision has used a port if and only if the decision makes its variable fire. */
  lemma UsedExactlyWhenFiring(c: Component, k: Predicate, decision: Predicate, p: Id)
    requires Ok(c) && c.Ended(k) && Within(k, decision) && p in c.Owned()
    ensures p in c.Vars() && c.Vars()[p] in decision && (c.Used(k, p) <==> decision[c.Vars()[p]] == FIRING)
  {
    match c
    case Native(ctx, s) =>
      hide N.Complete, N.Kept, N.Sound, N.OnlyPuts, N.SentMinimal, N.PutsOut;
      assert N.BranchOk(ctx, s.log, k, s.branches[k]);
      N.CommittedBy(ctx, s.log, k, s.branches[k], decision);
    case Protocol(agent, run, s) =>
      hide N.Sound, R.ResultsOk, P.Recording, P.ProtoCtx.Valid, A.WorkOnWay, A.AllLabelled, Programs.Follows, C.Complete, R.WorkAccounted;
      assert P.BranchOk(agent.ctx, s.log, k, s.branches[k]);
      P.CommittedBy(agent.ctx, s.log, k, s.branches[k], decision);
  }

  /** Everything a branch has received was sent to it under a predicate within its key. */
  lemma ReceivedFrom(c: Component, k: Predicate, g: Id) returns (x: N.Message)
    requires Ok(c) && g in c.Received(k)
    ensures c.HasBranch(k) && x in c.Log() && x.getter == g && x.payload == c.Received(k)[g] && Within(x.pred, k)
  {
    match c
    case Native(ctx, s) =>
      hide N.Complete, N.Kept, N.OnlyPuts, N.SentMinimal, N.Accurate, Within;
      assert N.BranchOk(ctx, s.log, k, s.branches[k]);
      x :| x in s.log && x.getter == g && x.payload == s.branches[k].gotten[g] && Within(x.pred, k);
    case Protocol(agent, run, s) =>
      hide R.ResultsOk, P.Recording, P.ProtoCtx.Valid, Binary, P.Settles, Within, A.WorkOnWay, A.AllLabelled, Programs.Follows, C.Complete,
        R.WorkAccounted;
      assert P.BranchOk(agent.ctx, s.log, k, s.branches[k]);
      x :| x in s.log && x.getter == g && x.payload == s.branches[k].inbox[g] && Within(x.pred, k);
  }

  /** Two messages that the native sent on one port under consistent predicates carry the same payload: that of
      the batch both predicates select. */
  lemma NativeSendsOne(c: Component, p: Id, pred: Predicate, pred': Predicate, bytes: seq<nat>, bytes': seq<nat>)
    requires Ok(c) && c.Native? && (p, pred, bytes) in c.Outgoing() && (p, pred', bytes') in c.Outgoing() && Consistent(pred, pred')
    ensures bytes == bytes'
  {
    hide N.Complete, N.Kept, N.Sound, N.SentMinimal;
    var s := c.nst;
    assert N.IsPut(c.nctx, s.branches, (p, pred, bytes)) && N.IsPut(c.nctx, s.branches, (p, pred', bytes'));
    assert N.BranchOk(c.nctx, s.log, pred, s.branches[pred]) && N.BranchOk(c.nctx, s.log, pred', s.branches[pred']);
    assert pred[c.nctx.nativeVar] == pred'[c.nctx.nativeVar];
  }

  /** A component that is sent coherent messages puts on each port with one voice. */
  lemma OwnVoice(c: Component)
    requires Ok(c) && Programs.Coherent(c.Log())
    ensures A.OneVoice(c.Outgoing())
  {
    match c
    case Native(ctx, s) =>
      hide Ok, Consistent, Programs.Coherent;
      forall o, o' | o in s.outgoing && o' in s.outgoing && o.0 == o'.0 && Consistent(o.1, o'.1) ensures o.2 == o'.2 {
        NativeSendsOne(c, o.0, o.1, o'.1, o.2, o'.2);
      }
    case Protocol(agent, run, s) =>
      hide A.AgentOk, C.Complete, A.OneVoice, Programs.Coherent;
      A.SpeaksWithOneVoice(agent, run, s);
  }

  /** A branch that has used a getter has received on it. */
  lemma UsedGetter(c: Component, k: Predicate, q: Id)
    requires Ok(c) && c.Used(k, q) && !c.IsPutter(q)
    ensures q in c.Received(k)
  {
    match c
    case Native(ctx, s) =>
      hide N.Complete, N.Kept, N.Sound, N.OnlyPuts, N.SentMinimal, N.PutsOut, N.Accurate, N.BranchOk;
      assert ctx.batches[s.branches[k].index] in ctx.batches;
    case Protocol(agent, run, s) =>
      hide A.WorkOnWay, A.AllLabelled, Programs.Follows, C.Complete, P.Recording, P.ProtoCtx.Valid, P.BranchOk, Within, Binary, R.PutsOwn;
      assert P.Accounted(s.outgoing, k, s.branches[k]);
      assert forall o <- s.outgoing :: P.MessageOk(agent.ctx, o);
  }

  /** A branch that has used a putter has put on it. */
  lemma UsedPutter(c: Component, k: Predicate, p: Id) returns (bytes: seq<nat>)
    requires Ok(c) && c.Used(k, p) && c.IsPutter(p)
    ensures c.Puts(k, p, bytes)
  {
    match c
    case Native(ctx, s) =>
      hide N.Complete, N.Kept, N.Sound, N.OnlyPuts, N.SentMinimal, N.PutsOut, N.Accurate;
      assert N.BranchOk(ctx, s.log, k, s.branches[k]);
      assert ctx.batches[s.branches[k].index] in ctx.batches;
      bytes := ctx.batches[s.branches[k].index].toPut[p];
      hide Ok;
      NativeHasSent(c, k, p);
    case Protocol(agent, run, s) =>
      assert P.Accounted(s.outgoing, k, s.branches[k]);
      if p in s.branches[k].inbox { ReceivedIsGetter(c, k, p); }
      hide Ok, Within;
      var o :| o in s.outgoing && o.0 == p && Within(o.1, k);
      bytes := o.2;
      assert (p, o.1, bytes) == o;
  }

  lemma NativeHasSent(c: Component, k: Predicate, p: Id)
    requires Ok(c) && c.Native? && k in c.nst.branches && c.nst.branches[k].index < |c.nctx.batches|
    requires p in c.nctx.batches[c.nst.branches[k].index].toPut
    ensures exists pred :: (p, pred, c.nctx.batches[c.nst.branches[k].index].toPut[p]) in c.nst.outgoing && Within(pred, k)
  {
    hide N.NativeOk, Within;
    var pred := N.BranchPutsSent(c.nctx, c.nst, k, p);
  }

  lemma ReceivedIsGetter(c: Component, k: Predicate, g: Id)
    requires Ok(c) && c.Protocol? && g in c.Received(k)
    ensures !c.IsPutter(g)
  {
    hide Ok;
    var x := ReceivedFrom(c, k, g);
    LogLabelled(c, x);
  }

  lemma LogLabelled(c: Component, x: N.Message)
    requires Ok(c) && c.Protocol? && x in c.Log()
    ensures A.Labelled(c.agent.ctx, x)
  {
    hide R.ProtoOk, A.WorkOnWay, Programs.Follows, C.Complete, A.Labelled;
  }

  /** What a decision finds in a component: an ended branch for any solution it submitted, unless a branch within
      the solution was overtaken. */
  lemma SubmittedIsFound(c: Component, p: Predicate)
    requires Ok(c) && p in c.Submitted() && (c.Protocol? ==> Programs.Coherent(c.Log()))
    ensures c.Ended(p) || (c.Protocol? && ((exists k :: c.Ended(k) && Within(k, p)) || C.HasOvertaken(c.agent, c.pst.branches, p)))
  {
    match c
    case Native(ctx, s) => hide N.BranchesOk, N.OnlyPuts, N.SentMinimal, N.Complete;
    case Protocol(agent, run, s) =>
      hide A.AgentOk, C.Complete, C.HasOvertaken, Programs.Coherent, Within;
      C.SubmittedCommits(agent, run, s, p);
      if R.CanCommit(s.branches, p) {
        var k :| k in s.branches && s.branches[k].ended && Within(k, p);
        assert c.Ended(k);
      }
  }
}
