/**
 What takes the durability of a forget away, step by step, whoever writes when: a write over the row
 with sources that are not all forgotten or not all free, and an answer given where that was already
 so. Within the lease neither happens.
 */
module ForgetDurability {
  import opened Memories
  import opened ForgetIntent
  import opened Attempts
  import opened UserLease
  import opened ForgetRuns
  import R = ForgetRedaction
  import F = Forget
  import Runs = MemoryRuns

  predicate AnyLive<E>(db: Db<E>, user: User, sources: seq<Source>) {
    exists o :: o in db.memories && F.Live(db, user, sources, o)
  }

  /** The row is forgotten with its intent in place, and no row of the user is left live with one of its sources. */
  ghost predicate Stands<E>(s: Sys<E>, user: User, id: Id) {
    && F.Forgotten(F.Sys(s.db, s.checkpoints, F.Idle), user, id)
    && !AnyLive(s.db, user, s.db.memories[id].record.sources)
  }

  predicate Done<E>(s: Sys<E>, user: User, id: Id) {
    (user, id) in s.checkpoints && s.checkpoints[(user, id)].completed
  }

  /** The step writes a record over the row. */
  predicate Overwrites<E>(s: Sys<E>, e: Event<E>, id: Id) {
    e.Act? && Acts(s, e.w, e.e) && R.Written(View(s, e.w), e.e).Some? && R.Written(View(s, e.w), e.e).value.id == id
  }

  /** That record has a source without a tombstone, or one that a live row of the user still carries. */
  predicate TakesBack<E>(s: Sys<E>, e: Event<E>, user: User, id: Id) {
    && Overwrites(s, e, id)
    && var sources := R.Written(View(s, e.w), e.e).value.sources;
       !F.Marked(s.db, user, sources) || AnyLive(s.db, user, sources)
  }

  /** That record has no forgotten source, and the row's own intent does not cover it. */
  predicate LeavesUnexplained<E>(s: Sys<E>, e: Event<E>, id: Id) {
    && Overwrites(s, e, id)
    && var r := R.Written(View(s, e.w), e.e).value;
       !Tombstoned(s.db, r.user, r.sources) && !((r.user, id) in s.checkpoints && F.Marked(s.db, r.user, r.sources))
  }

  /** The step answers the memory's forget as completed. */
  predicate AnswersCompleted<E>(s: Sys<E>, e: Event<E>, user: User, id: Id) {
    && e.Act? && e.e.Settle? && Acts(s, e.w, e.e)
    && ((s.attempts[e.w].phase.Propagating? && F.OutcomeFits(s.attempts[e.w].phase, e.e.outcome))
        || (s.attempts[e.w].phase.Updated? && e.e.outcome.Failure?))
    && (user, id) == F.Key(s.attempts[e.w].phase.req) && F.Settled(s.attempts[e.w].phase.c, e.e.outcome).completed
  }

  // ---- What a write does ----

  lemma WrittenForgets<E>(v: F.Sys<E>, e: F.Event<E>)
    requires Prepared(v) && !e.Env? && R.Written(v, e).Some?
    ensures F.Inactive(R.Written(v, e).value)
    ensures R.Written(v, e).value.id in v.db.memories ==> R.Written(v, e).value.user == v.db.memories[R.Written(v, e).value.id].record.user
    ensures e.Update? ==> F.Marked(v.db, R.Written(v, e).value.user, R.Written(v, e).value.sources)
  {
    hide CommitAdmits, F.SoftDelete, F.RedactIf, F.AllAcknowledged, Blank;
    var r := R.Written(v, e).value;
    if e.Cascade? {
      F.DerivedRecord(v.phase.listed[e.id], v.phase.req.redact, e.now);
      CommittedOwner(v.db, e.logical, r);
    } else {
      CommittedOwner(v.db, e.logical, r);
    }
  }

  lemma CommittedOwner<E>(db: Db<E>, logical: string, r: Record)
    requires CommitAdmits(db, logical, r)
    ensures r.id in db.memories ==> db.memories[r.id].record.user == r.user
  {
  }

  /** Rows, tombstones and checkpoints around a write. */
  lemma WriteTables<E>(v: F.Sys<E>, e: F.Event<E>)
    requires !e.Env? && R.Written(v, e).Some?
    ensures var v', r := F.Step(v, e), R.Written(v, e).value;
            && v'.checkpoints == v.checkpoints && v'.db.tombstones == v.db.tombstones
            && r.id in v'.db.memories && v'.db.memories[r.id].record == r
            && (forall o :: o in v.db.memories && o != r.id ==> o in v'.db.memories && v'.db.memories[o] == v.db.memories[o])
            && (forall o :: o in v'.db.memories && o != r.id ==> o in v.db.memories)
  {
    hide Commit, CommitAdmits, F.SoftDelete, F.RedactIf;
    if e.Cascade? {
      F.CommitRow(v.db, e.logical, F.RedactIf(F.SoftDelete(v.phase.listed[e.id], e.now), v.phase.req.redact, e.now), e.evidence);
    } else {
      F.CommitRow(v.db, e.logical, v.phase.r, e.evidence);
    }
  }

  lemma NothingWritten<E>(v: F.Sys<E>, e: F.Event<E>)
    requires !e.Env? && R.Written(v, e).None?
    ensures F.Step(v, e).db.memories == v.db.memories
  {
    hide F.SoftDelete, F.RedactIf, CommitAdmits;
    if !e.Update? && !e.Cascade? {
      R.OtherStepsKeepRows(v, e);
    }
  }

  /** Written records are forgotten ones, so no write brings a live row, and one over a forgotten row takes none away. */
  lemma WriteLive<E>(v: F.Sys<E>, e: F.Event<E>, user: User, sources: seq<Source>)
    requires Prepared(v) && !e.Env? && R.Written(v, e).Some?
    ensures var v' := F.Step(v, e);
            && (AnyLive(v'.db, user, sources) ==> AnyLive(v.db, user, sources))
            && (R.Written(v, e).value.id in v.db.memories && F.Inactive(v.db.memories[R.Written(v, e).value.id].record) ==>
                  (AnyLive(v.db, user, sources) ==> AnyLive(v'.db, user, sources)))
  {
    hide F.Step, F.Shares, Prepared, R.Written;
    WrittenForgets(v, e);
    WriteTables(v, e);
    var v', r := F.Step(v, e), R.Written(v, e).value;
    if AnyLive(v'.db, user, sources) {
      var o :| o in v'.db.memories && F.Live(v'.db, user, sources, o);
      assert F.Live(v.db, user, sources, o);
    }
    if AnyLive(v.db, user, sources) && r.id in v.db.memories && F.Inactive(v.db.memories[r.id].record) {
      var o :| o in v.db.memories && F.Live(v.db, user, sources, o);
      assert F.Live(v'.db, user, sources, o);
    }
  }

  // ---- Exactly when a forget no longer stands ----

  lemma ActStands<E>(s: Sys<E>, e: Event<E>, user: User, id: Id)
    requires Intent(s) && Stands(s, user, id) && e.Act? && Acts(s, e.w, e.e)
    ensures Stands(Step(s, e), user, id) <==> !TakesBack(s, e, user, id)
  {
    hide F.Step, R.Written, F.Shares, Prepared, Intent, Base, AnyLive;
    var v, sources := View(s, e.w), s.db.memories[id].record.sources;
    var v' := F.Step(v, e.e);
    ActsMeans(s, e.w, e.e);
    IntentView(s, e.w);
    StepPrepares(v, e.e);
    if R.Written(v, e.e).Some? {
      WrittenForgets(v, e.e);
      WriteTables(v, e.e);
      WriteLive(v, e.e, user, sources);
      WriteLive(v, e.e, user, R.Written(v, e.e).value.sources);
    } else {
      NothingWritten(v, e.e);
      SameLive(v.db, v'.db, user, sources);
    }
  }

  lemma SameLive<E>(db: Db<E>, db': Db<E>, user: User, sources: seq<Source>)
    requires db'.memories == db.memories
    ensures AnyLive(db', user, sources) <==> AnyLive(db, user, sources)
  {
    assert forall o :: F.Live(db', user, sources, o) <==> F.Live(db, user, sources, o);
  }

  lemma EnvStands<E>(s: Sys<E>, env: Runs.Event<E>, user: User, id: Id)
    requires Stands(s, user, id) && F.EnvAllowed(env)
    ensures Stands(Step(s, Env(env)), user, id)
  {
    hide Runs.Step, F.Step, F.EnvAllowed, F.Careful, F.Live;
    var v, s' := F.Sys(s.db, s.checkpoints, F.Idle), Step(s, Env(env));
    EnvView(v, env);
    F.EnvCareful(v, env);
    F.EnvRow(s.db, env, id);
    CarefulLive(v, F.Step(v, F.Env(env)), user, s.db.memories[id].record.sources);
    CarefulForgotten(v, F.Step(v, F.Env(env)), user, id);
  }

  lemma CarefulForgotten<E>(v: F.Sys<E>, v': F.Sys<E>, user: User, id: Id)
    requires F.Careful(v, v') && F.Forgotten(v, user, id)
    ensures F.Forgotten(v', user, id) && v'.db.memories[id].record.sources == v.db.memories[id].record.sources
  {
    F.ForgottenKept(v, v', user, id);
    hide F.Forgotten, F.Live;
  }

  lemma CarefulLive<E>(v: F.Sys<E>, v': F.Sys<E>, user: User, sources: seq<Source>)
    requires F.Careful(v, v') && F.Marked(v.db, user, sources)
    ensures AnyLive(v'.db, user, sources) ==> AnyLive(v.db, user, sources)
  {
    hide F.Grows, F.Forgotten, Tombstoned;
    if AnyLive(v'.db, user, sources) {
      var o :| o in v'.db.memories && F.Live(v'.db, user, sources, o);
      assert F.Live(v.db, user, sources, o);
      LiveRow(v.db, user, sources, o);
    }
  }

  /**
   Whoever writes when: a step takes a forget's standing away if and only if it writes over the row a
   record with a source that has no tombstone or that a live row still carries; and a source without a
   tombstone comes by a cascade only.
   */
  lemma DurabilityLostIff<E>(s: Sys<E>, e: Event<E>, user: User, id: Id)
    requires Intent(s) && Stands(s, user, id)
    ensures !Stands(Step(s, e), user, id) <==> TakesBack(s, e, user, id)
    ensures TakesBack(s, e, user, id) && !F.Marked(s.db, user, R.Written(View(s, e.w), e.e).value.sources) ==> e.e.Cascade?
  {
    hide Step, Stands, Intent, AnyLive, R.Written, Prepared, Base, F.EnvAllowed;
    if e.Act? && Acts(s, e.w, e.e) {
      ActStands(s, e, user, id);
      if Overwrites(s, e, id) {
        IntentView(s, e.w);
        WrittenForgets(View(s, e.w), e.e);
        StandsRow(s, user, id);
        WrittenKind(View(s, e.w), e.e);
      }
    } else if e.Env? && F.EnvAllowed(e.env) {
      EnvStands(s, e.env, user, id);
    } else {
      LeaseStands(s, e, user, id);
    }
  }

  lemma WrittenKind<E>(v: F.Sys<E>, e: F.Event<E>)
    requires R.Written(v, e).Some?
    ensures e.Update? || e.Cascade?
  {
  }

  lemma StandsRow<E>(s: Sys<E>, user: User, id: Id)
    requires Stands(s, user, id)
    ensures id in s.db.memories && s.db.memories[id].record.user == user
  {
  }

  lemma LeaseStands<E>(s: Sys<E>, e: Event<E>, user: User, id: Id)
    requires !(e.Act? && Acts(s, e.w, e.e)) && !(e.Env? && F.EnvAllowed(e.env))
    ensures Step(s, e).db == s.db && Step(s, e).checkpoints == s.checkpoints
    ensures Stands(Step(s, e), user, id) <==> Stands(s, user, id)
  {
    hide AnyLive, F.EnvAllowed;
  }

  /** Within the lease no write does that. */
  lemma InTimeNeverTakesBack<E>(s: Sys<E>, e: Event<E>, user: User, id: Id)
    requires Inv(s) && Intent(s) && OnTime(s, e) && Stands(s, user, id)
    ensures !TakesBack(s, e, user, id) && Stands(Step(s, e), user, id)
  {
    hide Step, Stands, Intent, Inv, R.Written, Holds;
    DurabilityLostIff(s, e, user, id);
    if Overwrites(s, e, id) {
      WrittenKind(View(s, e.w), e.e);
      HolderInv(s, e.w);
      F.StepCareful(View(s, e.w), e.e);
      WriteTables(View(s, e.w), e.e);
      SameSources(s, e.w, F.Step(View(s, e.w), e.e), user, id);
    }
    hide F.Step, F.Careful;
  }

  lemma SameSources<E>(s: Sys<E>, w: Owner, v': F.Sys<E>, user: User, id: Id)
    requires w in s.attempts && F.Careful(View(s, w), v') && Stands(s, user, id) && id in v'.db.memories
    ensures v'.db.memories[id].record.sources == s.db.memories[id].record.sources
    ensures F.Marked(s.db, user, s.db.memories[id].record.sources) && !AnyLive(s.db, user, s.db.memories[id].record.sources)
  {
    hide F.Live, AnyLive, Tombstoned;
  }

  // ---- Exactly when durability is lost ----

  /** A row that is forgotten has its own intent or a forgotten source. */
  predicate Explained<E>(s: Sys<E>, id: Id) {
    id in s.db.memories && F.Inactive(s.db.memories[id].record) ==>
      var r := s.db.memories[id].record;
      F.Forgotten(F.Sys(s.db, s.checkpoints, F.Idle), r.user, id) || Tombstoned(s.db, r.user, r.sources)
  }

  lemma ExplainedAfter<E>(s: Sys<E>, e: Event<E>, id: Id)
    requires Intent(s) && Explained(s, id)
    ensures !Explained(Step(s, e), id) <==> LeavesUnexplained(s, e, id)
  {
    hide F.Step, Runs.Step, F.EnvAllowed, R.Written, Prepared, Intent, Base;
    if e.Act? && Acts(s, e.w, e.e) {
      ActsMeans(s, e.w, e.e);
      IntentView(s, e.w);
      StepPrepares(View(s, e.w), e.e);
      if R.Written(View(s, e.w), e.e).Some? {
        WrittenForgets(View(s, e.w), e.e);
        WriteTables(View(s, e.w), e.e);
      } else {
        NothingWritten(View(s, e.w), e.e);
      }
    } else if e.Env? && F.EnvAllowed(e.env) {
      EnvExplained(s, e.env, id);
    }
  }

  lemma EnvExplained<E>(s: Sys<E>, env: Runs.Event<E>, id: Id)
    requires Explained(s, id) && F.EnvAllowed(env)
    ensures Explained(Step(s, Env(env)), id)
  {
    hide Runs.Step, F.EnvAllowed;
    Runs.TombstonesStep(s.db, env);
    if id in s.db.memories {
      F.EnvRow(s.db, env, id);
    } else if id in Runs.Step(s.db, env).memories {
      EnvNewRow(s.db, env, id);
    }
  }

  lemma DurableParts<E>(s: Sys<E>, user: User, id: Id)
    requires Intent(s)
    ensures DurableAt(s, user, id) <==> Explained(s, id) && (Done(s, user, id) ==> Stands(s, user, id))
  {
    hide F.Forgotten, Tombstoned, Keyed, BlankRows, Prepared, F.Live;
    if Done(s, user, id) {
      assert Sealed(s.db, user, id, s.checkpoints[(user, id)]);
    }
  }

  /** A checkpoint comes to be completed by an answer only, which leaves the rows alone. */
  lemma DoneAfter<E>(s: Sys<E>, e: Event<E>, user: User, id: Id)
    requires Intent(s) && Done(Step(s, e), user, id)
    ensures Done(s, user, id) || AnswersCompleted(s, e, user, id)
  {
    hide F.Step, Runs.Step, F.EnvAllowed, Prepared, Intent, Base;
    if e.Act? && Acts(s, e.w, e.e) {
      ActsMeans(s, e.w, e.e);
      IntentView(s, e.w);
      ActDone(View(s, e.w), e.e, user, id);
    }
  }

  lemma ActDone<E>(v: F.Sys<E>, e: F.Event<E>, user: User, id: Id)
    requires Prepared(v) && !e.Env?
    requires (user, id) in F.Step(v, e).checkpoints && F.Step(v, e).checkpoints[(user, id)].completed
    ensures ((user, id) in v.checkpoints && v.checkpoints[(user, id)].completed)
            || (e.Settle? && ((v.phase.Propagating? && F.OutcomeFits(v.phase, e.outcome)) || (v.phase.Updated? && e.outcome.Failure?))
                && (user, id) == F.Key(v.phase.req) && F.Settled(v.phase.c, e.outcome).completed)
  {
    hide Commit, CommitAdmits, F.MergeReceipts, F.AllAcknowledged, F.Protect, F.SoftDelete, F.Shares, Blank;
  }

  lemma AnswerStores<E>(s: Sys<E>, e: Event<E>, user: User, id: Id)
    requires AnswersCompleted(s, e, user, id)
    ensures Done(Step(s, e), user, id) && Step(s, e).db == s.db && !Overwrites(s, e, id)
    ensures Step(s, e).checkpoints.Keys == s.checkpoints.Keys + {(user, id)}
  {
    hide F.Settled, F.OutcomeFits;
  }

  /**
   Whoever writes when: a step takes away what a forget promises if and only if it leaves the row
   forgotten without a trace, takes back a completed forget that stood and stays recorded as completed,
   or answers as completed a forget that does not stand.
   */
  lemma PromiseBrokenIff<E>(s: Sys<E>, e: Event<E>, user: User, id: Id)
    requires Intent(s) && DurableAt(s, user, id)
    ensures !DurableAt(Step(s, e), user, id) <==>
            || LeavesUnexplained(s, e, id)
            || (Done(s, user, id) && Done(Step(s, e), user, id) && TakesBack(s, e, user, id))
            || (AnswersCompleted(s, e, user, id) && !Stands(Step(s, e), user, id))
  {
    hide Step, Intent, DurableAt, Stands, Explained, TakesBack, LeavesUnexplained, AnswersCompleted;
    StepIntent(s, e);
    DurableParts(s, user, id);
    DurableParts(Step(s, e), user, id);
    ExplainedAfter(s, e, id);
    if Done(Step(s, e), user, id) {
      DoneAfter(s, e, user, id);
    }
    if Done(s, user, id) {
      DurabilityLostIff(s, e, user, id);
    }
    if AnswersCompleted(s, e, user, id) {
      AnswerStores(s, e, user, id);
    }
  }
}
