/** `BranchingNative`: the native's synchronous batches as speculative branches that fork and
    merge as messages arrive. */
module Native {
  import opened Network
  import opened Predicates

  type Bytes = seq<nat>

  datatype Batch = Batch(toPut: map<Id, Bytes>, toGet: set<Id>)

  /** One branch: what it has received, and what it still awaits. It is ended when it awaits nothing. */
  datatype NativeBranch = NativeBranch(index: nat, gotten: map<Id, Bytes>, toGet: set<Id>)

  /** A speculative payload on its way to a getter, sent under a predicate. */
  datatype Message = Message(getter: Id, pred: Predicate, payload: Bytes)

  /** The native's ports with their variables, which of them are getters, the variable that tells the
      batches apart, and the batches. */
  datatype NativeCtx = NativeCtx(vars: map<Id, Id>, getters: set<Id>, nativeVar: Id, batches: seq<Batch>) {
    ghost predicate Valid() {
      && (forall p <- vars :: vars[p] != nativeVar)
      && getters <= vars.Keys
      && (forall b <- batches :: b.toGet <= getters && b.toPut.Keys <= vars.Keys - getters)
    }
  }

  function Firing(b: Batch): set<Id> { b.toGet + b.toPut.Keys }

  /** The key says which batch this is, and for each of the native's ports whether that batch uses it. */
  ghost predicate Accurate(ctx: NativeCtx, index: nat, key: Predicate) {
    && index < |ctx.batches| && ctx.nativeVar in key && key[ctx.nativeVar] == index
    && forall p <- ctx.vars :: ctx.vars[p] in key &&
         key[ctx.vars[p]] == if p in Firing(ctx.batches[index]) then FIRING else SILENT
  }

  /** Every payload received was sent under a predicate contained in the key. */
  ghost predicate Sound(log: set<Message>, key: Predicate, gotten: map<Id, Bytes>) {
    forall g <- gotten :: exists m <- log :: m.getter == g && m.payload == gotten[g] && Within(m.pred, key)
  }

  ghost predicate BranchOk(ctx: NativeCtx, log: set<Message>, key: Predicate, b: NativeBranch) {
    && Accurate(ctx, b.index, key)
    && b.gotten.Keys <= ctx.batches[b.index].toGet
    && b.toGet == ctx.batches[b.index].toGet - b.gotten.Keys
    && Sound(log, key, b.gotten)
  }

  ghost predicate BranchesOk(ctx: NativeCtx, log: set<Message>, branches: map<Predicate, NativeBranch>) {
    forall k <- branches :: BranchOk(ctx, log, k, branches[k])
  }

  /** Every submitted solution is the key of an ended branch. */
  ghost predicate Kept(branches: map<Predicate, NativeBranch>, submitted: set<Predicate>) {
    forall p <- submitted :: p in branches && branches[p].toGet == {}
  }

  /** The union of two branches with the same key. */
  function Merged(was: NativeBranch, b: NativeBranch): NativeBranch {
    NativeBranch(was.index, was.gotten + b.gotten, was.toGet - (b.gotten.Keys - was.gotten.Keys))
  }

  function Merge(branches: map<Predicate, NativeBranch>, key: Predicate, b: NativeBranch): map<Predicate, NativeBranch> {
    branches[key := if key in branches then Merged(branches[key], b) else b]
  }

  function Fed(b: NativeBranch, getter: Id, payload: Bytes): NativeBranch {
    NativeBranch(b.index, b.gotten[getter := payload], b.toGet - {getter})
  }

  lemma SoundMore(log: set<Message>, log': set<Message>, key: Predicate, key': Predicate, gotten: map<Id, Bytes>)
    requires Sound(log, key, gotten) && log <= log' && Within(key, key')
    ensures Sound(log', key', gotten)
  {
    forall g | g in gotten ensures exists m <- log' :: m.getter == g && m.payload == gotten[g] && Within(m.pred, key') {
      var m :| m in log && m.getter == g && m.payload == gotten[g] && Within(m.pred, key);
      assert m in log' && Within(m.pred, key');
    }
  }

  lemma AccurateMore(ctx: NativeCtx, index: nat, key: Predicate, key': Predicate)
    requires Accurate(ctx, index, key) && Within(key, key')
    ensures Accurate(ctx, index, key')
  {
  }

  /** A branch may move to a key that extends its own. */
  lemma BranchMore(ctx: NativeCtx, log: set<Message>, log': set<Message>, key: Predicate, key': Predicate, b: NativeBranch)
    requires BranchOk(ctx, log, key, b) && log <= log' && Within(key, key')
    ensures BranchOk(ctx, log', key', b)
  {
    hide Accurate, Sound, Within;
    AccurateMore(ctx, b.index, key, key');
    SoundMore(log, log', key, key', b.gotten);
  }

  /** Merging branches of one key keeps both branches' messages, and ends if either has ended. */
  lemma MergedOk(ctx: NativeCtx, log: set<Message>, key: Predicate, was: NativeBranch, b: NativeBranch)
    requires BranchOk(ctx, log, key, was) && BranchOk(ctx, log, key, b)
    ensures BranchOk(ctx, log, key, Merged(was, b))
    ensures was.toGet == {} || b.toGet == {} ==> Merged(was, b).toGet == {}
    ensures Merged(was, b).gotten.Keys == was.gotten.Keys + b.gotten.Keys
  {
    assert was.index == b.index;
    var r := Merged(was, b);
    forall g | g in r.gotten
      ensures exists m <- log :: m.getter == g && m.payload == r.gotten[g] && Within(m.pred, key)
    {
      if g in b.gotten {
        var m :| m in log && m.getter == g && m.payload == b.gotten[g] && Within(m.pred, key);
      }
    }
  }

  lemma MergeOk(ctx: NativeCtx, log: set<Message>, branches: map<Predicate, NativeBranch>, key: Predicate, b: NativeBranch)
    requires BranchesOk(ctx, log, branches) && BranchOk(ctx, log, key, b)
    ensures BranchesOk(ctx, log, Merge(branches, key, b))
    ensures Grown(branches, Merge(branches, key, b))
    ensures key in Merge(branches, key, b) && Includes(Merge(branches, key, b)[key], b)
  {
    hide BranchOk, Merged;
    if key in branches { MergedOk(ctx, log, key, branches[key], b); }
  }

  /** `more` has received what `b` has, and has ended if `b` has. */
  ghost predicate Includes(more: NativeBranch, b: NativeBranch) {
    b.gotten.Keys <= more.gotten.Keys && (b.toGet == {} ==> more.toGet == {})
  }

  ghost predicate Grown(branches: map<Predicate, NativeBranch>, more: map<Predicate, NativeBranch>) {
    forall k <- branches :: k in more && Includes(more[k], branches[k])
  }

  /** The branch asks for a message on this port. */
  predicate Wants(ctx: NativeCtx, key: Predicate, getter: Id)
    requires getter in ctx.vars
  {
    ctx.vars[getter] in key && key[ctx.vars[getter]] == FIRING
  }

  /** The branch with this key receives the message. */
  ghost predicate Accepts(ctx: NativeCtx, key: Predicate, m: Message)
    requires m.getter in ctx.vars
  {
    Wants(ctx, key, m.getter) && Consistent(key, m.pred)
  }

  lemma FedOk(ctx: NativeCtx, log: set<Message>, key: Predicate, b: NativeBranch, m: Message)
    requires ctx.Valid() && BranchOk(ctx, log, key, b) && m in log && m.getter in ctx.getters
    requires Wants(ctx, key, m.getter) && Within(m.pred, key)
    ensures BranchOk(ctx, log, key, Fed(b, m.getter, m.payload))
  {
    var r := Fed(b, m.getter, m.payload);
    assert m.getter in ctx.batches[b.index].toGet by {
      assert ctx.batches[b.index] in ctx.batches;
      assert m.getter in Firing(ctx.batches[b.index]);
    }
    forall g | g in r.gotten
      ensures exists x <- log :: x.getter == g && x.payload == r.gotten[g] && Within(x.pred, key)
    {
      if g != m.getter {
        var x :| x in log && x.getter == g && x.payload == b.gotten[g] && Within(x.pred, key);
      }
    }
  }

  /** The outcome of feeding one branch: the finished branches and the solutions submitted so far. */
  datatype Progress = Progress(finished: map<Predicate, NativeBranch>, submitted: set<Predicate>)

  function Submit(pr: Progress, key: Predicate, b: NativeBranch): Progress {
    if b.toGet == {} then pr.(submitted := pr.submitted + {key}) else pr
  }

  /** Feed one branch: it receives the message in place, or in a fork under the union of both
      predicates, or not at all. */
  function FeedOne(ctx: NativeCtx, m: Message, key: Predicate, b: NativeBranch, pr: Progress): Progress
    requires m.getter in ctx.vars
  {
    if !Wants(ctx, key, m.getter) then Progress(Merge(pr.finished, key, b), pr.submitted)
    else
      var fed := Fed(b, m.getter, m.payload);
      match Union(key, m.pred)
      case Nonexistant => Progress(Merge(pr.finished, key, b), pr.submitted)
      case Equivalent => Progress(Merge(pr.finished, key, fed), Submit(pr, key, fed).submitted)
      case FormerNotLatter => Progress(Merge(pr.finished, key, fed), Submit(pr, key, fed).submitted)
      case LatterNotFormer => Progress(Merge(Merge(pr.finished, key, b), m.pred, fed), Submit(pr, m.pred, fed).submitted)
      case New(u) => Progress(Merge(Merge(pr.finished, key, b), u, fed), Submit(pr, u, fed).submitted)
  }

  /** There is a branch under the union of both predicates that has the message and all that `b` had, and
      it was submitted if `b` awaited nothing else. */
  ghost predicate IsFed(m: Message, key: Predicate, b: NativeBranch, pr: Progress) {
    && key + m.pred in pr.finished && Includes(pr.finished[key + m.pred], Fed(b, m.getter, m.payload))
    && (b.toGet <= {m.getter} ==> key + m.pred in pr.submitted)
  }

  /** What holds after a branch has been fed. */
  ghost predicate FeedOneOk(ctx: NativeCtx, log: set<Message>, m: Message, key: Predicate, b: NativeBranch, pr: Progress, pr': Progress)
    requires m.getter in ctx.vars
  {
    && BranchesOk(ctx, log, pr'.finished) && Grown(pr.finished, pr'.finished) && pr.submitted <= pr'.submitted
    && key in pr'.finished && Includes(pr'.finished[key], b)
    && (forall p <- pr'.submitted :: p in pr.submitted || (p in pr'.finished && pr'.finished[p].toGet == {}))
    && (Accepts(ctx, key, m) ==> IsFed(m, key, b, pr'))
  }

  lemma GrownTrans(a: map<Predicate, NativeBranch>, b: map<Predicate, NativeBranch>, c: map<Predicate, NativeBranch>)
    requires Grown(a, b) && Grown(b, c)
    ensures Grown(a, c)
  {
  }

  lemma UnionKeys(p: Predicate, q: Predicate)
    ensures Union(p, q).Nonexistant? <==> !Consistent(p, q)
    ensures Union(p, q).Equivalent? || Union(p, q).FormerNotLatter? ==> p + q == p && Within(q, p)
    ensures Union(p, q).LatterNotFormer? ==> p + q == q && Within(p, q) && Within(q, q)
    ensures Union(p, q).New? ==> Union(p, q).pred == p + q && Within(p, p + q) && Within(q, p + q)
  {
  }

  lemma WantsMore(ctx: NativeCtx, key: Predicate, key': Predicate, getter: Id)
    requires getter in ctx.vars && Wants(ctx, key, getter) && Within(key, key')
    ensures Wants(ctx, key', getter)
  {
  }

  lemma FeedsOne(ctx: NativeCtx, log: set<Message>, m: Message, key: Predicate, b: NativeBranch, pr: Progress)
    requires ctx.Valid() && m in log && m.getter in ctx.getters
    requires BranchesOk(ctx, log, pr.finished) && BranchOk(ctx, log, key, b)
    ensures FeedOneOk(ctx, log, m, key, b, pr, FeedOne(ctx, m, key, b, pr))
  {
    hide BranchesOk, BranchOk, Merge, Fed, Union, Within, Consistent;
    UnionKeys(key, m.pred);
    MergeOk(ctx, log, pr.finished, key, b);
    if Wants(ctx, key, m.getter) && Consistent(key, m.pred) {
      if Union(key, m.pred).Equivalent? || Union(key, m.pred).FormerNotLatter? {
        FeedsInPlace(ctx, log, m, key, b, pr);
      } else {
        FeedsFork(ctx, log, m, key, b, pr, key + m.pred);
      }
    }
  }

  lemma FeedsInPlace(ctx: NativeCtx, log: set<Message>, m: Message, key: Predicate, b: NativeBranch, pr: Progress)
    requires ctx.Valid() && m in log && m.getter in ctx.getters && key + m.pred == key
    requires BranchesOk(ctx, log, pr.finished) && BranchOk(ctx, log, key, b)
    requires Wants(ctx, key, m.getter) && Within(m.pred, key)
    ensures var fed := Fed(b, m.getter, m.payload);
      FeedOneOk(ctx, log, m, key, b, pr, Progress(Merge(pr.finished, key, fed), Submit(pr, key, fed).submitted))
  {
    hide BranchesOk, BranchOk, Merge, Within, Consistent, Fed, Grown, Wants;
    var fed := Fed(b, m.getter, m.payload);
    FedOk(ctx, log, key, b, m);
    FedIncludes(b, m);
    MergeOk(ctx, log, pr.finished, key, fed);
  }

  lemma FedIncludes(b: NativeBranch, m: Message)
    ensures var fed := Fed(b, m.getter, m.payload);
      Includes(fed, b) && (fed.toGet == {} <==> b.toGet <= {m.getter})
  {
    assert b.toGet - {m.getter} == {} <==> b.toGet <= {m.getter};
  }

  lemma FeedsFork(ctx: NativeCtx, log: set<Message>, m: Message, key: Predicate, b: NativeBranch, pr: Progress, key2: Predicate)
    requires ctx.Valid() && m in log && m.getter in ctx.getters && key2 == key + m.pred
    requires BranchesOk(ctx, log, pr.finished) && BranchOk(ctx, log, key, b)
    requires Wants(ctx, key, m.getter) && Within(m.pred, key2) && Within(key, key2)
    ensures var fed := Fed(b, m.getter, m.payload);
      FeedOneOk(ctx, log, m, key, b, pr, Progress(Merge(Merge(pr.finished, key, b), key2, fed), Submit(pr, key2, fed).submitted))
  {
    hide BranchesOk, BranchOk, Merge, Within, Consistent;
    var fed := Fed(b, m.getter, m.payload);
    WantsMore(ctx, key, key2, m.getter);
    BranchMore(ctx, log, log, key, key2, b);
    FedOk(ctx, log, key2, b, m);
    MergeOk(ctx, log, pr.finished, key, b);
    var once := Merge(pr.finished, key, b);
    MergeOk(ctx, log, once, key2, fed);
    GrownTrans(pr.finished, once, Merge(once, key2, fed));
  }

  /** No port of the native is silent in a batch that uses the other end of the same channel. */
  ghost predicate Coherent(ctx: NativeCtx, b: Batch) {
    forall p, q | p in ctx.vars && q in ctx.vars && ctx.vars[p] == ctx.vars[q] :: p in Firing(b) ==> q in Firing(b)
  }

  /** A message sent is a put of the batch whose branch has the message's predicate as its key. */
  ghost predicate IsPut(ctx: NativeCtx, branches: map<Predicate, NativeBranch>, o: (Id, Predicate, Bytes)) {
    && o.1 in branches && branches[o.1].index < |ctx.batches|
    && o.0 in ctx.batches[branches[o.1].index].toPut && o.2 == ctx.batches[branches[o.1].index].toPut[o.0]
  }

  /** Every put of every batch that has a branch was sent under that branch's key. */
  ghost predicate AllSent(ctx: NativeCtx, branches: map<Predicate, NativeBranch>, outgoing: set<(Id, Predicate, Bytes)>) {
    forall k <- branches | branches[k].index < |ctx.batches| :: PutsSent(ctx.batches[branches[k].index], k, outgoing)
  }

  ghost predicate PutsSent(batch: Batch, key: Predicate, outgoing: set<(Id, Predicate, Bytes)>) {
    forall p <- batch.toPut :: (p, key, batch.toPut[p]) in outgoing
  }

  ghost predicate OnlyPuts(ctx: NativeCtx, branches: map<Predicate, NativeBranch>, outgoing: set<(Id, Predicate, Bytes)>) {
    forall o <- outgoing :: IsPut(ctx, branches, o)
  }

  /** `key` gives each port of the native the value that the batch implies. */
  ghost predicate Assigns(ctx: NativeCtx, batch: Batch, key: Predicate, ports: set<Id>) {
    forall p <- ctx.vars | p in ports ::
      ctx.vars[p] in key && key[ctx.vars[p]] == if p in Firing(batch) then FIRING else SILENT
  }

  ghost predicate HasBranch(branches: map<Predicate, NativeBranch>, index: nat) {
    exists k <- branches :: branches[k].index == index
  }

  /** The first `n` batches have been translated: exactly the coherent ones have a branch, whose key is
      accurate; those that await nothing are submitted; what was sent are exactly their puts. */
  ghost predicate Translated(ctx: NativeCtx, n: nat, branches: map<Predicate, NativeBranch>, submitted: set<Predicate>,
                             outgoing: set<(Id, Predicate, Bytes)>) {
    && n <= |ctx.batches|
    && (forall k <- branches :: branches[k].index < n && Accurate(ctx, branches[k].index, k)
          && branches[k] == NativeBranch(branches[k].index, map[], ctx.batches[branches[k].index].toGet))
    && (forall i | 0 <= i < n :: Coherent(ctx, ctx.batches[i]) <==> HasBranch(branches, i))
    && submitted == (set k | k in branches && branches[k].toGet == {})
    && OnlyPuts(ctx, branches, outgoing) && AllSent(ctx, branches, outgoing)
    && (forall k <- branches :: Minimal(ctx, k))
  }

  /** The key assigns nothing but the native's own variables. */
  ghost predicate Minimal(ctx: NativeCtx, key: Predicate) {
    forall v <- key :: v == ctx.nativeVar || exists p <- ctx.vars :: ctx.vars[p] == v
  }

  lemma TranslatedOk(ctx: NativeCtx, n: nat, branches: map<Predicate, NativeBranch>, submitted: set<Predicate>,
                     outgoing: set<(Id, Predicate, Bytes)>)
    requires Translated(ctx, n, branches, submitted, outgoing)
    ensures BranchesOk(ctx, {}, branches) && Kept(branches, submitted) && OnlyPuts(ctx, branches, outgoing)
  {
    hide Accurate, Coherent, HasBranch, OnlyPuts, AllSent, Minimal;
  }

  lemma TranslateSkip(ctx: NativeCtx, n: nat, branches: map<Predicate, NativeBranch>, submitted: set<Predicate>,
                      outgoing: set<(Id, Predicate, Bytes)>)
    requires n < |ctx.batches| && Translated(ctx, n, branches, submitted, outgoing) && !Coherent(ctx, ctx.batches[n])
    ensures Translated(ctx, n + 1, branches, submitted, outgoing)
  {
    hide Accurate, Coherent, OnlyPuts, AllSent, Minimal;
  }

  lemma KeyTellsIndex(ctx: NativeCtx, i: nat, j: nat, key: Predicate)
    requires Accurate(ctx, i, key) && Accurate(ctx, j, key)
    ensures i == j
  {
  }

  lemma TranslateAdd(ctx: NativeCtx, n: nat, branches: map<Predicate, NativeBranch>, submitted: set<Predicate>,
                     outgoing: set<(Id, Predicate, Bytes)>, pred: Predicate, sent: set<(Id, Predicate, Bytes)>)
    requires n < |ctx.batches| && Translated(ctx, n, branches, submitted, outgoing) && Coherent(ctx, ctx.batches[n])
    requires Accurate(ctx, n, pred) && Minimal(ctx, pred)
    requires forall o <- sent | o !in outgoing ::
      o.1 == pred && o.0 in ctx.batches[n].toPut && o.2 == ctx.batches[n].toPut[o.0]
    requires outgoing <= sent && PutsSent(ctx.batches[n], pred, sent)
    ensures pred !in branches
    ensures Translated(ctx, n + 1, branches[pred := NativeBranch(n, map[], ctx.batches[n].toGet)],
                       submitted + (if ctx.batches[n].toGet == {} then {pred} else {}), sent)
  {
    hide Coherent, Minimal, OnlyPuts, AllSent, PutsSent, HasBranch;
    if pred in branches { KeyTellsIndex(ctx, n, branches[pred].index, pred); }
    hide Accurate;
    var more := branches[pred := NativeBranch(n, map[], ctx.batches[n].toGet)];
    forall i | 0 <= i < n + 1 ensures HasBranch(more, i) <==> HasBranch(branches, i) || i == n {
      HasOneMore(branches, pred, more[pred], i);
      NoneYet(branches, n);
    }
    SentMore(ctx, branches, outgoing, pred, more[pred], sent);
  }

  lemma NoneYet(branches: map<Predicate, NativeBranch>, n: nat)
    requires forall k <- branches :: branches[k].index < n
    ensures !HasBranch(branches, n)
  {
  }

  lemma HasOneMore(branches: map<Predicate, NativeBranch>, pred: Predicate, b: NativeBranch, i: nat)
    requires pred !in branches
    ensures HasBranch(branches[pred := b], i) <==> HasBranch(branches, i) || i == b.index
  {
    var more := branches[pred := b];
    assert pred in more;
    if k :| k in branches && branches[k].index == i { assert k in more && more[k].index == i; }
  }

  lemma SentMore(ctx: NativeCtx, branches: map<Predicate, NativeBranch>, outgoing: set<(Id, Predicate, Bytes)>,
                 pred: Predicate, b: NativeBranch, sent: set<(Id, Predicate, Bytes)>)
    requires OnlyPuts(ctx, branches, outgoing) && AllSent(ctx, branches, outgoing) && pred !in branches && b.index < |ctx.batches|
    requires forall o <- sent | o !in outgoing ::
      o.1 == pred && o.0 in ctx.batches[b.index].toPut && o.2 == ctx.batches[b.index].toPut[o.0]
    requires outgoing <= sent && PutsSent(ctx.batches[b.index], pred, sent)
    ensures OnlyPuts(ctx, branches[pred := b], sent) && AllSent(ctx, branches[pred := b], sent)
  {
    var more := branches[pred := b];
    forall o | o in sent ensures IsPut(ctx, more, o) {
      if o in outgoing { assert IsPut(ctx, branches, o); }
    }
  }

  /** The native in the course of a round: `log` are the messages it has been fed. */
  datatype NativeState = NativeState(branches: map<Predicate, NativeBranch>, submitted: set<Predicate>,
                                     outgoing: set<(Id, Predicate, Bytes)>, log: set<Message>)

  ghost predicate NativeOk(ctx: NativeCtx, s: NativeState) {
    && ctx.Valid() && BranchesOk(ctx, s.log, s.branches) && Kept(s.branches, s.submitted)
    && OnlyPuts(ctx, s.branches, s.outgoing) && SentMinimal(ctx, s.outgoing) && Complete(ctx, s.log, s.branches, s.submitted)
    && PutsOut(ctx, s.outgoing)
  }

  /** Every put of every coherent batch was sent under a predicate that says no more than that this is the batch. */
  ghost predicate PutsOut(ctx: NativeCtx, outgoing: set<(Id, Predicate, Bytes)>) {
    forall i | 0 <= i < |ctx.batches| && Coherent(ctx, ctx.batches[i]) :: BatchOut(ctx, i, outgoing)
  }

  ghost predicate BatchOut(ctx: NativeCtx, i: nat, outgoing: set<(Id, Predicate, Bytes)>)
    requires i < |ctx.batches|
  {
    exists k :: Accurate(ctx, i, k) && Minimal(ctx, k) && PutsSent(ctx.batches[i], k, outgoing)
  }

  lemma TranslatedOut(ctx: NativeCtx, branches: map<Predicate, NativeBranch>, submitted: set<Predicate>, outgoing: set<(Id, Predicate, Bytes)>)
    requires Translated(ctx, |ctx.batches|, branches, submitted, outgoing)
    ensures PutsOut(ctx, outgoing)
  {
    hide Accurate, Coherent, OnlyPuts, Minimal, PutsSent;
    forall i | 0 <= i < |ctx.batches| && Coherent(ctx, ctx.batches[i]) ensures BatchOut(ctx, i, outgoing) {
      assert HasBranch(branches, i);
      var k :| k in branches && branches[k].index == i;
      assert PutsSent(ctx.batches[branches[k].index], k, outgoing);
    }
  }

  lemma AccurateCoherent(ctx: NativeCtx, i: nat, key: Predicate)
    requires Accurate(ctx, i, key)
    ensures Coherent(ctx, ctx.batches[i])
  {
  }

  /** Whatever the batch of a branch puts has been sent, under a predicate within the branch's key. */
  lemma BranchPutsSent(ctx: NativeCtx, s: NativeState, k: Predicate, p: Id) returns (pred: Predicate)
    requires NativeOk(ctx, s) && k in s.branches
    ensures s.branches[k].index < |ctx.batches| && var puts := ctx.batches[s.branches[k].index].toPut;
      p in puts ==> (p, pred, puts[p]) in s.outgoing && Within(pred, k)
  {
    hide Complete, Kept, Sound, OnlyPuts, SentMinimal, Accurate, Minimal, Coherent, NativeCtx.Valid;
    assert BranchOk(ctx, s.log, k, s.branches[k]);
    var i := s.branches[k].index;
    BranchIndex(ctx, s.log, k, s.branches[k]);
    AccurateCoherent(ctx, i, k);
    assert BatchOut(ctx, i, s.outgoing);
    pred :| Accurate(ctx, i, pred) && Minimal(ctx, pred) && PutsSent(ctx.batches[i], pred, s.outgoing);
    MinimalWithin(ctx, i, pred, k);
  }

  lemma BranchIndex(ctx: NativeCtx, log: set<Message>, k: Predicate, b: NativeBranch)
    requires BranchOk(ctx, log, k, b)
    ensures b.index < |ctx.batches|
  {
    hide Sound;
  }

  /** What was sent assumes nothing but the native's own choice of batch. */
  ghost predicate SentMinimal(ctx: NativeCtx, outgoing: set<(Id, Predicate, Bytes)>) {
    forall o <- outgoing :: Minimal(ctx, o.1)
  }

  /** The batches have been translated. */
  ghost predicate NativeStarts(ctx: NativeCtx, s: NativeState) {
    Translated(ctx, |ctx.batches|, s.branches, s.submitted, s.outgoing) && s.log == {}
  }

  lemma NativeStartsOk(ctx: NativeCtx, s: NativeState)
    requires ctx.Valid() && NativeStarts(ctx, s)
    ensures NativeOk(ctx, s)
  {
    hide Translated, BranchesOk, Kept, OnlyPuts, Complete, NativeCtx.Valid;
    TranslatedOk(ctx, |ctx.batches|, s.branches, s.submitted, s.outgoing);
    TranslatedMinimal(ctx, |ctx.batches|, s.branches, s.submitted, s.outgoing);
    TranslatedOut(ctx, s.branches, s.submitted, s.outgoing);
    CompleteAtStart(ctx, s.branches, s.submitted, s.outgoing);
  }

  lemma TranslatedMinimal(ctx: NativeCtx, n: nat, branches: map<Predicate, NativeBranch>, submitted: set<Predicate>,
                          outgoing: set<(Id, Predicate, Bytes)>)
    requires Translated(ctx, n, branches, submitted, outgoing)
    ensures SentMinimal(ctx, outgoing)
  {
    hide Accurate, Coherent, HasBranch, AllSent, Minimal;
    forall o | o in outgoing ensures Minimal(ctx, o.1) { assert IsPut(ctx, branches, o); }
  }

  /** The branch has already received something else on this port. */
  predicate Mismatch(b: NativeBranch, m: Message) {
    m.getter in b.gotten && b.gotten[m.getter] != m.payload
  }

  /** Some branch that accepts the message has already received something else on this port. */
  ghost predicate Contradicted(ctx: NativeCtx, branches: map<Predicate, NativeBranch>, m: Message)
    requires m.getter in ctx.vars
  {
    exists k <- branches :: Accepts(ctx, k, m) && Mismatch(branches[k], m)
  }

  lemma ContradictedMeans(ctx: NativeCtx, branches: map<Predicate, NativeBranch>, m: Message)
    requires m.getter in ctx.vars
    ensures Contradicted(ctx, branches, m) <==> exists k <- branches ::
      && ctx.vars[m.getter] in k && k[ctx.vars[m.getter]] == FIRING && Consistent(k, m.pred)
      && m.getter in branches[k].gotten && branches[k].gotten[m.getter] != m.payload
  {
    hide Consistent;
  }

  /** All branches are fed, in some order. */
  ghost function FeedAll(ctx: NativeCtx, m: Message, order: seq<Predicate>, branches: map<Predicate, NativeBranch>,
                         submitted: set<Predicate>): Progress
    requires m.getter in ctx.vars && forall k <- order :: k in branches
    decreases |order|
  {
    if order == [] then Progress(map[], submitted)
    else
      var front, last := order[..|order| - 1], order[|order| - 1];
      FeedOne(ctx, m, last, branches[last], FeedAll(ctx, m, front, branches, submitted))
  }

  ghost function Rest(branches: map<Predicate, NativeBranch>, order: seq<Predicate>): map<Predicate, NativeBranch> {
    map k | k in branches && k !in order :: branches[k]
  }

  lemma {:induction false} FeedAllFeeds(ctx: NativeCtx, log: set<Message>, m: Message, order: seq<Predicate>,
                                        branches: map<Predicate, NativeBranch>, submitted: set<Predicate>)
    requires ctx.Valid() && m in log && m.getter in ctx.getters && BranchesOk(ctx, log, branches) && Kept(branches, submitted)
    requires Distinct(order) && forall k <- order :: k in branches
    ensures m.getter in ctx.vars
    ensures Feeding(ctx, log, m, branches, submitted, Rest(branches, order), FeedAll(ctx, m, order, branches, submitted))
    decreases |order|
  {
    hide FeedOne, BranchesOk, Kept, Feeding, NativeCtx.Valid;
    ValidGetter(ctx, m.getter);
    if order == [] {
      assert Rest(branches, order) == branches;
      FeedStart(ctx, log, m, branches, Progress(map[], submitted));
    } else {
      var front, last := order[..|order| - 1], order[|order| - 1];
      assert order == front + [last];
      FeedAllFeeds(ctx, log, m, front, branches, submitted);
      FeedNext(ctx, log, m, branches, submitted, Rest(branches, front), last, FeedAll(ctx, m, front, branches, submitted));
      assert Rest(branches, front) - {last} == Rest(branches, order);
    }
  }

  /** The native is fed a message that contradicts nothing it has received. */
  ghost predicate NativeFeeds(ctx: NativeCtx, s: NativeState, m: Message, s': NativeState) {
    && m.getter in ctx.vars && !Contradicted(ctx, s.branches, m)
    && s'.outgoing == s.outgoing && s'.log == s.log + {m}
    && exists order :: Orders(order, s.branches.Keys) && FeedAll(ctx, m, order, s.branches, s.submitted) == Progress(s'.branches, s'.submitted)
  }

  lemma NativeFeedsOk(ctx: NativeCtx, s: NativeState, m: Message, s': NativeState)
    requires NativeOk(ctx, s) && m.getter in ctx.getters && NativeFeeds(ctx, s, m, s')
    ensures NativeOk(ctx, s') && Grown(s.branches, s'.branches) && s.submitted <= s'.submitted
    ensures forall k <- s.branches | Accepts(ctx, k, m) :: IsFed(m, k, s.branches[k], Progress(s'.branches, s'.submitted))
  {
    hide BranchesOk, FeedAll, Feeding, Kept, NativeCtx.Valid, Grown, Accepts, OnlyPuts, Complete, IsFed, Contradicted;
    var order :| Orders(order, s.branches.Keys) && FeedAll(ctx, m, order, s.branches, s.submitted) == Progress(s'.branches, s'.submitted);
    Relog(ctx, s.log, s'.log, s.branches);
    FeedAllFeeds(ctx, s'.log, m, order, s.branches, s.submitted);
    assert Rest(s.branches, order) == map[];
    FeedDone(ctx, s'.log, m, s.branches, s.submitted, Progress(s'.branches, s'.submitted));
    CompleteNext(ctx, s.log, m, s.branches, s.submitted, s'.branches, s'.submitted);
    PutsStay(ctx, s.log, s.branches, s'.log, s'.branches, s.outgoing);
  }

  class BranchingNative {
    const ctx: NativeCtx
    var branches: map<Predicate, NativeBranch>
    var submitted: set<Predicate>
    var outgoing: set<(Id, Predicate, Bytes)>
    ghost var log: set<Message>

    ghost function State(): NativeState
      reads this
    {
      NativeState(branches, submitted, outgoing, log)
    }

    ghost predicate Valid()
      reads this
    {
      NativeOk(ctx, State())
    }

    /** Translate the batches into branches, sending their puts and submitting those that await nothing. */
    constructor (ctx: NativeCtx)
      requires ctx.Valid()
      ensures this.ctx == ctx && Valid() && NativeStarts(ctx, State())
    {
      this.ctx := ctx;
      branches, submitted, outgoing, log := map[], {}, {}, {};
      new;
      hide Translated, NativeOk;
      var index := 0;
      TranslateNone(ctx);
      while index < |ctx.batches|
        invariant 0 <= index <= |ctx.batches| && log == {}
        invariant Translated(ctx, index, branches, submitted, outgoing)
      {
        AddBatch(index);
        index := index + 1;
      }
      NativeStartsOk(ctx, State());
    }

    method AddBatch(index: nat)
      requires ctx.Valid() && index < |ctx.batches| && Translated(ctx, index, branches, submitted, outgoing)
      modifies this`branches, this`submitted, this`outgoing
      ensures Translated(ctx, index + 1, branches, submitted, outgoing)
    {
      hide Translated, Coherent;
      var batch := ctx.batches[index];
      var key := BatchKey(ctx, batch);
      if key == None {
        TranslateSkip(ctx, index, branches, submitted, outgoing);
        return;
      }
      var pred := key.value[ctx.nativeVar := index];
      assert Accurate(ctx, index, pred) && Minimal(ctx, pred);
      var todo, sent := batch.toPut.Keys, outgoing;
      while todo != {}
        invariant todo <= batch.toPut.Keys && outgoing <= sent
        invariant forall o <- sent | o !in outgoing :: o.1 == pred && o.0 in batch.toPut && o.2 == batch.toPut[o.0]
        invariant forall p <- batch.toPut | p !in todo :: (p, pred, batch.toPut[p]) in sent
        decreases todo
      {
        var putter :| putter in todo;
        sent := sent + {(putter, pred, batch.toPut[putter])};
        todo := todo - {putter};
      }
      TranslateAdd(ctx, index, branches, submitted, outgoing, pred, sent);
      outgoing := sent;
      var branch := NativeBranch(index, map[], batch.toGet);
      submitted := submitted + (if branch.toGet == {} then {pred} else {});
      branches := branches[pred := branch];
    }

    /** Feed the given payload to every branch that accepts it, forking those whose predicate it extends. The
        assertion on repeated payloads fails iff a branch that accepts it has received something else. */
    method FeedMsg(m: Message) returns (ok: bool)
      requires Valid() && m.getter in ctx.getters
      modifies this`branches, this`submitted, this`log
      ensures m.getter in ctx.vars && (ok <==> !Contradicted(ctx, old(branches), m))
      ensures ok <==> !exists k <- old(branches) ::
        && ctx.vars[m.getter] in k && k[ctx.vars[m.getter]] == FIRING && Consistent(k, m.pred)
        && m.getter in old(branches)[k].gotten && old(branches)[k].gotten[m.getter] != m.payload
      ensures ok ==> NativeFeeds(ctx, old(State()), m, State())
      ensures ok ==> Valid() && old(submitted) <= submitted && Grown(old(branches), branches)
      ensures ok ==> forall k <- old(branches) | Accepts(ctx, k, m) :: IsFed(m, k, old(branches)[k], Progress(branches, submitted))
    {
      hide NativeOk, FeedOne, Grown, Accepts, IsFed, Mismatch, FedSoFar, Contradicted, NativeFeeds;
      GetterKnown(ctx, State(), m.getter);
      var draining, pr := branches, Progress(map[], submitted);
      ghost var order: seq<Predicate> := [];
      FedNone(ctx, m, branches, submitted);
      while draining != map[]
        invariant State() == old(State())
        invariant FedSoFar(ctx, m, branches, submitted, order, draining, pr)
        decreases |draining|
      {
        var key :| key in draining;
        FedNext(ctx, m, branches, submitted, order, draining, pr, key);
        var branch := draining[key];
        var fine;
        fine, pr := FeedBranch(m, key, branch, pr);
        if !fine {
          ContradictedMeans(ctx, branches, m);
          return false;
        }
        order := order + [key];
        draining := draining - {key};
      }
      FedAll(ctx, State(), m, order, pr);
      ContradictedMeans(ctx, branches, m);
      branches, submitted, log := pr.finished, pr.submitted, log + {m};
      NativeFeedsOk(ctx, old(State()), m, State());
      ok := true;
    }

    /** Feed one branch, as the loop body does. */
    method FeedBranch(m: Message, key: Predicate, branch: NativeBranch, pr: Progress) returns (ok: bool, pr': Progress)
      requires m.getter in ctx.vars
      ensures ok <==> !(Accepts(ctx, key, m) && Mismatch(branch, m))
      ensures !ok <==>
        && ctx.vars[m.getter] in key && key[ctx.vars[m.getter]] == FIRING && Consistent(key, m.pred)
        && m.getter in branch.gotten && branch.gotten[m.getter] != m.payload
      ensures ok ==> pr' == FeedOne(ctx, m, key, branch, pr)
    {
      hide Within;
      ok, pr' := true, pr;
      var var' := ctx.vars[m.getter];
      if var' !in key || key[var'] != FIRING {
        var kept := InsertMerging(pr.finished, key, branch);
        return true, Progress(kept, pr.submitted);
      }
      var union := UnionOf(key, m.pred);
      if union.Nonexistant? {
        var kept := InsertMerging(pr.finished, key, branch);
        return true, Progress(kept, pr.submitted);
      }
      if m.getter in branch.gotten && branch.gotten[m.getter] != m.payload { return false, pr; }
      var fed := Fed(branch, m.getter, m.payload);
      match union
      case LatterNotFormer =>
        pr' := Submit(pr, m.pred, fed);
        var kept := InsertMerging(pr'.finished, key, branch);
        kept := InsertMerging(kept, m.pred, fed);
        pr' := pr'.(finished := kept);
      case New(u) =>
        pr' := Submit(pr, u, fed);
        var kept := InsertMerging(pr'.finished, key, branch);
        kept := InsertMerging(kept, u, fed);
        pr' := pr'.(finished := kept);
      case _ =>
        pr' := Submit(pr, key, fed);
        var kept := InsertMerging(pr'.finished, key, fed);
        pr' := pr'.(finished := kept);
    }

    /** Commit the branch that the decision selects. */
    method CollapseWith(solution: Predicate) returns (r: Option<(nat, map<Id, Bytes>)>)
      requires Valid()
      ensures r.Some? <==> exists k <- branches :: branches[k].toGet == {} && Within(k, solution)
      ensures r.Some? ==> Committed(ctx, log, solution, r.value.0, r.value.1)
    {
      hide Within, Kept, NativeCtx.Valid, BranchOk, OnlyPuts, Complete, SentMinimal;
      var todo := branches.Keys;
      while todo != {}
        invariant todo <= branches.Keys
        invariant forall k <- branches | k !in todo :: !(branches[k].toGet == {} && Within(k, solution))
        decreases todo
      {
        var key :| key in todo;
        if branches[key].toGet == {} && Within(key, solution) {
          CommittedBy(ctx, log, key, branches[key], solution);
          return Some((branches[key].index, branches[key].gotten));
        }
        todo := todo - {key};
      }
      r := None;
    }
  }

  /** `insert_branch_merging`: union of what was received, one payload at a time. */
  method InsertMerging(branches: map<Predicate, NativeBranch>, key: Predicate, branch: NativeBranch)
    returns (r: map<Predicate, NativeBranch>)
    ensures r == Merge(branches, key, branch)
    ensures key !in branches ==> r == branches[key := branch]
    ensures key in branches ==>
      && r == branches[key := r[key]] && r[key].index == branches[key].index
      && r[key].gotten == branches[key].gotten + branch.gotten
      && forall g :: g in r[key].toGet <==> g in branches[key].toGet && (g in branch.gotten ==> g in branches[key].gotten)
  {
    if key !in branches {
      return branches[key := branch];
    }
    var was := branches[key];
    var gotten, toGet := was.gotten, was.toGet;
    var todo := branch.gotten.Keys;
    while todo != {}
      invariant todo <= branch.gotten.Keys
      invariant gotten == was.gotten + (map g | g in branch.gotten && g !in todo :: branch.gotten[g])
      invariant toGet == was.toGet - (branch.gotten.Keys - todo - was.gotten.Keys)
      decreases todo
    {
      var g :| g in todo;
      if g !in gotten {
        toGet := toGet - {g};
      }
      gotten := gotten[g := branch.gotten[g]];
      todo := todo - {g};
    }
    assert gotten == was.gotten + branch.gotten;
    assert branch.gotten.Keys - todo - was.gotten.Keys == branch.gotten.Keys - was.gotten.Keys;
    r := branches[key := NativeBranch(was.index, gotten, toGet)];
  }

  /** The native completes the round with batch `index`, having received `gotten`. */
  ghost predicate Committed(ctx: NativeCtx, log: set<Message>, solution: Predicate, index: nat, gotten: map<Id, Bytes>) {
    && Accurate(ctx, index, solution)
    && gotten.Keys == ctx.batches[index].toGet
    && Sound(log, solution, gotten)
  }

  lemma CommittedBy(ctx: NativeCtx, log: set<Message>, key: Predicate, b: NativeBranch, solution: Predicate)
    requires BranchOk(ctx, log, key, b) && b.toGet == {} && Within(key, solution)
    ensures Committed(ctx, log, solution, b.index, b.gotten)
  {
    hide Sound;
    BranchMore(ctx, log, log, key, solution, b);
    var wanted := ctx.batches[b.index].toGet;
    assert forall g <- wanted :: g in b.gotten.Keys || g in wanted - b.gotten.Keys;
  }

  // ---- what is submitted ----

  /** Whatever is wanted has been received under a predicate contained in `q`. */
  ghost predicate Available(log: set<Message>, wanted: set<Id>, q: Predicate) {
    forall g <- wanted :: ArrivedFor(log, g, q)
  }

  ghost predicate ArrivedFor(log: set<Message>, g: Id, q: Predicate) {
    exists m <- log :: m.getter == g && Within(m.pred, q)
  }

  /** A solution contained in `q` has been submitted. */
  ghost predicate Offered(submitted: set<Predicate>, q: Predicate) {
    exists p <- submitted :: Within(p, q)
  }

  ghost predicate HasAll(log: set<Message>, wanted: set<Id>, q: Predicate, b: NativeBranch) {
    forall m <- log | m.getter in wanted && Within(m.pred, q) :: m.getter in b.gotten
  }

  ghost predicate ServesAs(ctx: NativeCtx, log: set<Message>, i: nat, q: Predicate, k: Predicate, b: NativeBranch)
    requires i < |ctx.batches|
  {
    b.index == i && Within(k, q) && HasAll(log, ctx.batches[i].toGet, q, b)
  }

  /** Some branch of batch `i` within `q` has received everything that was sent within `q`. */
  ghost predicate Served(ctx: NativeCtx, log: set<Message>, branches: map<Predicate, NativeBranch>, i: nat, q: Predicate)
    requires i < |ctx.batches|
  {
    exists k <- branches :: ServesAs(ctx, log, i, q, k, branches[k])
  }

  /** Forking and merging miss nothing: for every predicate `q` that selects a batch, however it comes about,
      a branch within `q` is up to date, and a solution is offered as soon as the messages are there. */
  ghost predicate Complete(ctx: NativeCtx, log: set<Message>, branches: map<Predicate, NativeBranch>, submitted: set<Predicate>) {
    forall i: nat, q | Selects(ctx, i, q) ::
      Served(ctx, log, branches, i, q) && (Available(log, ctx.batches[i].toGet, q) ==> Offered(submitted, q))
  }

  /** `q` selects batch `i`, which does not contradict itself. */
  ghost predicate Selects(ctx: NativeCtx, i: nat, q: Predicate) {
    i < |ctx.batches| && Coherent(ctx, ctx.batches[i]) && Accurate(ctx, i, q)
  }

  lemma MinimalWithin(ctx: NativeCtx, i: nat, key: Predicate, q: Predicate)
    requires Accurate(ctx, i, key) && Minimal(ctx, key) && Accurate(ctx, i, q)
    ensures Within(key, q)
  {
  }

  lemma CompleteAtStart(ctx: NativeCtx, branches: map<Predicate, NativeBranch>, submitted: set<Predicate>,
                        outgoing: set<(Id, Predicate, Bytes)>)
    requires Translated(ctx, |ctx.batches|, branches, submitted, outgoing)
    ensures Complete(ctx, {}, branches, submitted)
  {
    hide Accurate, Coherent, OnlyPuts, AllSent, Minimal, Within;
    forall i: nat, q | Selects(ctx, i, q)
      ensures Served(ctx, {}, branches, i, q) && (Available({}, ctx.batches[i].toGet, q) ==> Offered(submitted, q))
    {
      assert HasBranch(branches, i);
      var k :| k in branches && branches[k].index == i;
      MinimalWithin(ctx, i, k, q);
      assert ServesAs(ctx, {}, i, q, k, branches[k]);
      if Available({}, ctx.batches[i].toGet, q) {
        assert forall g <- ctx.batches[i].toGet :: ArrivedFor({}, g, q);
        assert ctx.batches[i].toGet == {};
      }
    }
  }

  lemma CompleteNext(ctx: NativeCtx, log: set<Message>, m: Message, before: map<Predicate, NativeBranch>, submitted: set<Predicate>,
                     after: map<Predicate, NativeBranch>, submitted': set<Predicate>)
    requires ctx.Valid() && m.getter in ctx.vars && Complete(ctx, log, before, submitted) && submitted <= submitted'
    requires BranchesOk(ctx, log, before) && BranchesOk(ctx, log + {m}, after) && Grown(before, after)
    requires forall k <- before | Accepts(ctx, k, m) :: IsFed(m, k, before[k], Progress(after, submitted'))
    ensures Complete(ctx, log + {m}, after, submitted')
  {
    hide BranchOk, Grown, Accepts, IsFed, Selects, NativeCtx.Valid;
    forall i: nat, q | Selects(ctx, i, q)
      ensures i < |ctx.batches| && Served(ctx, log + {m}, after, i, q)
      ensures Available(log + {m}, ctx.batches[i].toGet, q) ==> Offered(submitted', q)
    {
      SelectsBatch(ctx, i, q);
      assert Served(ctx, log, before, i, q);
      hide Available, Offered, ServesAs;
      var k :| k in before && ServesAs(ctx, log, i, q, k, before[k]);
      if m.getter in ctx.batches[i].toGet && Within(m.pred, q) {
        ServedFed(ctx, log, m, i, q, k, before[k], after, submitted');
      } else {
        ServedOn(ctx, log, m, i, q, k, before, after);
        AvailableBefore(log, m, ctx.batches[i].toGet, q);
        OfferedMore(submitted, submitted', q);
      }
    }
  }

  lemma SelectsBatch(ctx: NativeCtx, i: nat, q: Predicate)
    requires Selects(ctx, i, q)
    ensures i < |ctx.batches| && Accurate(ctx, i, q)
  {
  }

  lemma OfferedMore(submitted: set<Predicate>, submitted': set<Predicate>, q: Predicate)
    requires submitted <= submitted'
    ensures Offered(submitted, q) ==> Offered(submitted', q)
  {
  }

  lemma AvailableBefore(log: set<Message>, m: Message, wanted: set<Id>, q: Predicate)
    requires !(m.getter in wanted && Within(m.pred, q))
    ensures Available(log + {m}, wanted, q) ==> Available(log, wanted, q)
  {
    hide Within;
    if Available(log + {m}, wanted, q) {
      forall g | g in wanted ensures ArrivedFor(log, g, q) {
        assert ArrivedFor(log + {m}, g, q);
        var x :| x in log + {m} && x.getter == g && Within(x.pred, q);
        assert x in log;
      }
    }
  }

  /** A message that does not concern `q` leaves the branch that serves it in place. */
  lemma ServedOn(ctx: NativeCtx, log: set<Message>, m: Message, i: nat, q: Predicate, k: Predicate,
                 before: map<Predicate, NativeBranch>, after: map<Predicate, NativeBranch>)
    requires i < |ctx.batches| && !(m.getter in ctx.batches[i].toGet && Within(m.pred, q))
    requires k in before && ServesAs(ctx, log, i, q, k, before[k])
    requires BranchesOk(ctx, log, before) && BranchesOk(ctx, log + {m}, after) && Grown(before, after)
    ensures Served(ctx, log + {m}, after, i, q)
  {
    hide Within, Accurate, Sound;
    assert k in after && Includes(after[k], before[k]);
    assert BranchOk(ctx, log, k, before[k]) && BranchOk(ctx, log + {m}, k, after[k]);
    KeyTellsIndex(ctx, before[k].index, after[k].index, k);
    assert ServesAs(ctx, log + {m}, i, q, k, after[k]);
  }

  /** A message that does is received by the branch that serves `q`. */
  lemma ServedFed(ctx: NativeCtx, log: set<Message>, m: Message, i: nat, q: Predicate, k: Predicate, b: NativeBranch,
                  after: map<Predicate, NativeBranch>, submitted': set<Predicate>)
    requires i < |ctx.batches| && Accurate(ctx, i, q) && m.getter in ctx.vars
    requires m.getter in ctx.batches[i].toGet && Within(m.pred, q)
    requires ServesAs(ctx, log, i, q, k, b) && BranchOk(ctx, log, k, b) && BranchesOk(ctx, log + {m}, after)
    requires Accepts(ctx, k, m) ==> IsFed(m, k, b, Progress(after, submitted'))
    ensures Served(ctx, log + {m}, after, i, q)
    ensures Available(log + {m}, ctx.batches[i].toGet, q) ==> Offered(submitted', q)
  {
    BothWithin(k, m.pred, q);
    assert m.getter in Firing(ctx.batches[i]);
    assert Wants(ctx, k, m.getter);
    hide Within, Sound, Consistent;
    var k' := k + m.pred;
    assert BranchOk(ctx, log + {m}, k', after[k']);
    SameIndex(ctx, i, q, k', after[k'].index);
    hide Accurate;
    assert ServesAs(ctx, log + {m}, i, q, k', after[k']);
    if Available(log + {m}, ctx.batches[i].toGet, q) {
      NothingElse(ctx, log, m, i, q, b);
    }
  }

  lemma SameIndex(ctx: NativeCtx, i: nat, q: Predicate, k: Predicate, j: nat)
    requires Accurate(ctx, i, q) && Accurate(ctx, j, k) && Within(k, q)
    ensures i == j
  {
  }

  lemma BothWithin(p: Predicate, p': Predicate, q: Predicate)
    requires Within(p, q) && Within(p', q)
    ensures Consistent(p, p') && Within(p + p', q)
  {
  }

  /** If with this message everything is there, the branch awaits nothing else. */
  lemma NothingElse(ctx: NativeCtx, log: set<Message>, m: Message, i: nat, q: Predicate, b: NativeBranch)
    requires i < |ctx.batches| && b.index == i && b.toGet == ctx.batches[i].toGet - b.gotten.Keys
    requires HasAll(log, ctx.batches[i].toGet, q, b) && Available(log + {m}, ctx.batches[i].toGet, q)
    ensures b.toGet <= {m.getter}
  {
    hide Within;
    forall g | g in b.toGet ensures g == m.getter {
      assert ArrivedFor(log + {m}, g, q);
      var x :| x in log + {m} && x.getter == g && Within(x.pred, q);
      assert x in log ==> x.getter in b.gotten;
    }
  }

  /** For every predicate that selects a batch, a solution within it has been submitted if and only if every
      message the batch awaits has been received under a predicate contained in it. */
  lemma OfferedExactlyWhen(ctx: NativeCtx, log: set<Message>, branches: map<Predicate, NativeBranch>, submitted: set<Predicate>, i: nat, q: Predicate)
    requires BranchesOk(ctx, log, branches) && Kept(branches, submitted) && Complete(ctx, log, branches, submitted)
    requires Selects(ctx, i, q)
    ensures Offered(submitted, q) <==> Available(log, ctx.batches[i].toGet, q)
  {
    hide Served, Complete, Accurate, Within;
    assert Available(log, ctx.batches[i].toGet, q) ==> Offered(submitted, q) by { CompleteOffers(ctx, log, branches, submitted, i, q); }
    if p :| p in submitted && Within(p, q) {
      SameIndex(ctx, i, q, p, branches[p].index);
      CommittedBy(ctx, log, p, branches[p], q);
      forall g | g in ctx.batches[i].toGet ensures ArrivedFor(log, g, q) {
        assert g in branches[p].gotten;
      }
    }
  }

  lemma CompleteOffers(ctx: NativeCtx, log: set<Message>, branches: map<Predicate, NativeBranch>, submitted: set<Predicate>, i: nat, q: Predicate)
    requires Complete(ctx, log, branches, submitted) && Selects(ctx, i, q)
    ensures Available(log, ctx.batches[i].toGet, q) ==> Offered(submitted, q)
  {
    hide Selects, Available, Offered, Served;
  }

  /** What was sent under a predicate stays a put of the batch that the predicate selects. */
  lemma PutsStay(ctx: NativeCtx, log: set<Message>, branches: map<Predicate, NativeBranch>,
                 log': set<Message>, more: map<Predicate, NativeBranch>, outgoing: set<(Id, Predicate, Bytes)>)
    requires BranchesOk(ctx, log, branches) && BranchesOk(ctx, log', more) && Grown(branches, more) && OnlyPuts(ctx, branches, outgoing)
    ensures OnlyPuts(ctx, more, outgoing)
  {
    hide Accurate, Sound, Includes;
    forall o | o in outgoing ensures IsPut(ctx, more, o) {
      assert IsPut(ctx, branches, o);
      KeyTellsIndex(ctx, branches[o.1].index, more[o.1].index, o.1);
    }
  }

  /** A message that the committed branch of a getter received from the native was put by the batch the
      native commits: both are selected by the native's variable. */
  lemma ReceivedIsPut(ctx: NativeCtx, log: set<Message>, branches: map<Predicate, NativeBranch>, o: (Id, Predicate, Bytes),
                      solution: Predicate, index: nat)
    requires BranchesOk(ctx, log, branches) && IsPut(ctx, branches, o) && Within(o.1, solution) && Accurate(ctx, index, solution)
    ensures o.0 in ctx.batches[index].toPut && ctx.batches[index].toPut[o.0] == o.2
  {
    hide Sound;
    assert BranchOk(ctx, log, o.1, branches[o.1]);
  }

  lemma TranslateNone(ctx: NativeCtx)
    ensures Translated(ctx, 0, map[], {}, {})
  {
  }

  lemma ValidGetter(ctx: NativeCtx, getter: Id)
    requires ctx.Valid() && getter in ctx.getters
    ensures getter in ctx.vars
  {
  }

  lemma GetterKnown(ctx: NativeCtx, s: NativeState, getter: Id)
    requires NativeOk(ctx, s) && getter in ctx.getters
    ensures getter in ctx.vars
  {
  }

  /** The state of the feeding loop: the branches in `order` have been fed. */
  ghost predicate FedSoFar(ctx: NativeCtx, m: Message, branches: map<Predicate, NativeBranch>, submitted: set<Predicate>,
                           order: seq<Predicate>, draining: map<Predicate, NativeBranch>, pr: Progress)
    requires m.getter in ctx.vars
  {
    && Distinct(order) && (forall k <- order :: k in branches) && draining == Rest(branches, order)
    && pr == FeedAll(ctx, m, order, branches, submitted)
    && forall k <- order :: !(Accepts(ctx, k, m) && Mismatch(branches[k], m))
  }

  lemma FedNone(ctx: NativeCtx, m: Message, branches: map<Predicate, NativeBranch>, submitted: set<Predicate>)
    requires m.getter in ctx.vars
    ensures FedSoFar(ctx, m, branches, submitted, [], branches, Progress(map[], submitted))
  {
    assert Rest(branches, []) == branches;
  }

  lemma FedNext(ctx: NativeCtx, m: Message, branches: map<Predicate, NativeBranch>, submitted: set<Predicate>,
                order: seq<Predicate>, draining: map<Predicate, NativeBranch>, pr: Progress, key: Predicate)
    requires m.getter in ctx.vars && FedSoFar(ctx, m, branches, submitted, order, draining, pr) && key in draining
    ensures |draining - {key}| < |draining|
    ensures if Accepts(ctx, key, m) && Mismatch(draining[key], m) then Contradicted(ctx, branches, m)
      else FedSoFar(ctx, m, branches, submitted, order + [key], draining - {key}, FeedOne(ctx, m, key, draining[key], pr))
  {
    hide FeedOne, Accepts, Mismatch;
    var more := order + [key];
    assert more[..|more| - 1] == order;
    assert draining.Keys == (draining - {key}).Keys + {key};
    assert key in branches && draining[key] == branches[key];
    assert Rest(branches, more) == draining - {key};
  }

  lemma FedAll(ctx: NativeCtx, s: NativeState, m: Message, order: seq<Predicate>, pr: Progress)
    requires m.getter in ctx.vars && FedSoFar(ctx, m, s.branches, s.submitted, order, map[], pr)
    ensures !Contradicted(ctx, s.branches, m)
    ensures NativeFeeds(ctx, s, m, NativeState(pr.finished, pr.submitted, s.outgoing, s.log + {m}))
  {
    hide Accepts, Mismatch, FeedAll;
    forall k | k in s.branches ensures k in order { assert k !in Rest(s.branches, order); }
    assert Orders(order, s.branches.Keys);
  }

  lemma Relog(ctx: NativeCtx, log: set<Message>, log': set<Message>, branches: map<Predicate, NativeBranch>)
    requires BranchesOk(ctx, log, branches) && log <= log'
    ensures BranchesOk(ctx, log', branches)
  {
    hide BranchOk;
    forall k | k in branches ensures BranchOk(ctx, log', k, branches[k]) {
      WithinSelf(k);
      BranchMore(ctx, log, log', k, k, branches[k]);
    }
  }

  /** The state of the feeding loop: `draining` are the branches still to be fed. */
  ghost predicate Feeding(ctx: NativeCtx, log: set<Message>, m: Message, before: map<Predicate, NativeBranch>,
                          submitted: set<Predicate>, draining: map<Predicate, NativeBranch>, pr: Progress)
  {
    && m.getter in ctx.vars
    && BranchesOk(ctx, log, draining) && BranchesOk(ctx, log, pr.finished) && submitted <= pr.submitted
    && (forall k <- draining :: k in before && draining[k] == before[k])
    && (forall k <- before | k !in draining :: FedAlready(ctx, m, k, before[k], pr))
    && (forall p <- pr.submitted :: EndedIn(pr.finished, p) || EndedIn(draining, p))
  }

  ghost predicate EndedIn(branches: map<Predicate, NativeBranch>, p: Predicate) {
    p in branches && branches[p].toGet == {}
  }

  /** The branch has had its turn: it is still there, and if it accepts the message, so is the fed one. */
  ghost predicate FedAlready(ctx: NativeCtx, m: Message, key: Predicate, b: NativeBranch, pr: Progress)
    requires m.getter in ctx.vars
  {
    && key in pr.finished && Includes(pr.finished[key], b)
    && (Accepts(ctx, key, m) ==> IsFed(m, key, b, pr))
  }

  lemma FeedStart(ctx: NativeCtx, log: set<Message>, m: Message, branches: map<Predicate, NativeBranch>, pr: Progress)
    requires m.getter in ctx.vars && BranchesOk(ctx, log, branches) && Kept(branches, pr.submitted) && pr.finished == map[]
    ensures Feeding(ctx, log, m, branches, pr.submitted, branches, pr)
  {
  }

  lemma FedAlreadyGrows(ctx: NativeCtx, m: Message, key: Predicate, b: NativeBranch,
                        pr: Progress, pr': Progress)
    requires m.getter in ctx.vars && FedAlready(ctx, m, key, b, pr) && Grown(pr.finished, pr'.finished) && pr.submitted <= pr'.submitted
    ensures FedAlready(ctx, m, key, b, pr')
  {
    hide Accepts, Fed;
  }

  lemma FeedNext(ctx: NativeCtx, log: set<Message>, m: Message, before: map<Predicate, NativeBranch>, submitted: set<Predicate>,
                 draining: map<Predicate, NativeBranch>, key: Predicate, pr: Progress)
    requires ctx.Valid() && m in log && m.getter in ctx.getters
    requires Feeding(ctx, log, m, before, submitted, draining, pr) && key in draining
    ensures m.getter in ctx.vars
    ensures Feeding(ctx, log, m, before, submitted, draining - {key}, FeedOne(ctx, m, key, draining[key], pr))
    ensures |draining - {key}| < |draining|
  {
    hide FeedOne, Accepts, BranchOk, IsFed;
    FeedsOne(ctx, log, m, key, draining[key], pr);
    var pr', rest := FeedOne(ctx, m, key, draining[key], pr), draining - {key};
    forall k | k in before && k !in rest ensures FedAlready(ctx, m, k, before[k], pr') {
      if k in draining { assert k == key; } else { FedAlreadyGrows(ctx, m, k, before[k], pr, pr'); }
    }
    hide FedAlready;
    forall p | p in pr'.submitted ensures EndedIn(pr'.finished, p) || EndedIn(rest, p) {
    }
    assert draining.Keys == rest.Keys + {key};
  }

  lemma FeedDone(ctx: NativeCtx, log: set<Message>, m: Message, before: map<Predicate, NativeBranch>, submitted: set<Predicate>, pr: Progress)
    requires Feeding(ctx, log, m, before, submitted, map[], pr)
    ensures BranchesOk(ctx, log, pr.finished) && Kept(pr.finished, pr.submitted) && submitted <= pr.submitted
    ensures Grown(before, pr.finished) && m.getter in ctx.vars
    ensures forall k <- before | Accepts(ctx, k, m) :: IsFed(m, k, before[k], pr)
  {
    hide Accepts, BranchesOk, IsFed;
  }

  /** The firing variables of a batch, or nothing if the batch contradicts itself. */
  method BatchKey(ctx: NativeCtx, batch: Batch) returns (key: Option<Predicate>)
    requires ctx.Valid() && batch in ctx.batches
    ensures key.Some? <==> Coherent(ctx, batch)
    ensures key.Some? ==> Assigns(ctx, batch, key.value, ctx.vars.Keys)
    ensures key.Some? ==> forall v <- key.value :: exists p <- ctx.vars :: ctx.vars[p] == v
  {
    var pred: Predicate := map[];
    var todo := Firing(batch);
    while todo != {}
      invariant todo <= Firing(batch)
      invariant forall p <- Firing(batch) - todo :: ctx.vars[p] in pred
      invariant forall v <- pred :: pred[v] == FIRING && exists p <- Firing(batch) :: ctx.vars[p] == v
      decreases todo
    {
      var port :| port in todo;
      pred := pred[ctx.vars[port] := FIRING];
      todo := todo - {port};
    }
    var silent := ctx.vars.Keys - Firing(batch);
    while silent != {}
      invariant silent <= ctx.vars.Keys - Firing(batch)
      invariant Assigns(ctx, batch, pred, ctx.vars.Keys - silent)
      invariant forall v <- pred :: exists p <- ctx.vars :: p !in silent && ctx.vars[p] == v
      decreases silent
    {
      var port :| port in silent;
      var v := ctx.vars[port];
      if v in pred && pred[v] == FIRING {
        var other :| other in ctx.vars && other !in silent && ctx.vars[other] == v;
        return None;
      }
      pred := pred[v := SILENT];
      silent := silent - {port};
    }
    key := Some(pred);
  }
}
