/**
  The dispatch of bin/s3-update-folder-owner.py (lines 109-110):
  `executor.map(process, objects())`, modelled sequentially. The thread the
  pool picks for each object is an input (`schedule`), so every assignment
  of workers to objects is covered; the order of remote calls across
  different objects is the listing order.
*/
module Dispatch {
  import opened Listing
  import opened HandleCache
  import opened Remediation

  /** The cache after the run and what each `process` call did, in listing order. */
  datatype RunResult = RunResult(cache: Cache, steps: seq<Step>)

  /** The command-line arguments `main` uses (lines 30-33). */
  datatype Args = Args(bucketName: string, prefix: string, startAfter: string)

  /** A whole run: the scope the listing was requested for, the objects listed, and the dispatch. */
  datatype Session = Session(scope: Scope, objects: seq<ObjectSummary>, run: RunResult)

  /**
    `process` applied to each listed object in turn; object i runs on worker
    `schedule[i]`, which looks up (or creates) its handle first.
  */
  function Run(cache: Cache, store: Store, bucket: string, objs: seq<ObjectSummary>, schedule: seq<WorkerId>): (r: RunResult)
    requires |schedule| == |objs|
    ensures |r.steps| == |objs|
    ensures forall i :: 0 <= i < |objs| ==> r.steps[i].outcome.key == objs[i].key
    decreases |objs|
  {
    if |objs| == 0 then
      RunResult(cache, [])
    else
      var lookup := GetOrCreate(cache, schedule[0]);
      var step := Remediate(store, bucket, lookup.handle, objs[0]);
      var rest := Run(lookup.cache, store, bucket, objs[1..], schedule[1..]);
      RunResult(rest.cache, [step] + rest.steps)
  }

  /** All remote calls of a run, in the order they were issued. */
  function Trace(steps: seq<Step>): seq<Effect>
    decreases |steps|
  {
    if |steps| == 0 then [] else steps[0].effects + Trace(steps[1..])
  }

  /** The keys of the ACL puts of a trace, in order. */
  function AclKeys(t: seq<Effect>): seq<string>
    decreases |t|
  {
    if |t| == 0 then []
    else (if t[0].PutObjectAcl? then [t[0].key] else []) + AclKeys(t[1..])
  }

  /** The keys of the copies of a trace, in order. */
  function CopyKeys(t: seq<Effect>): seq<string>
    decreases |t|
  {
    if |t| == 0 then []
    else (if t[0].CopyObject? then [t[0].key] else []) + CopyKeys(t[1..])
  }

  /** The listed keys, in listing order. */
  function Keys(objs: seq<ObjectSummary>): (r: seq<string>)
    ensures |r| == |objs|
    ensures forall i :: 0 <= i < |objs| ==> r[i] == objs[i].key
  {
    seq(|objs|, i requires 0 <= i < |objs| => objs[i].key)
  }

  lemma KeysCons(objs: seq<ObjectSummary>)
    requires |objs| > 0
    ensures Keys(objs) == [objs[0].key] + Keys(objs[1..])
  {
    assert Keys(objs) == [objs[0].key] + Keys(objs[1..]);
  }

  /** The listed keys whose ACL put the store accepts, in listing order. */
  function AclAcceptedKeys(store: Store, objs: seq<ObjectSummary>): seq<string>
    decreases |objs|
  {
    if |objs| == 0 then []
    else (if objs[0].key in store.aclRefused then [] else [objs[0].key]) + AclAcceptedKeys(store, objs[1..])
  }

  lemma {:induction false} TraceAppend(a: seq<Step>, b: seq<Step>)
    ensures Trace(a + b) == Trace(a) + Trace(b)
    decreases |a|
  {
    if |a| == 0 {
      assert a + b == b;
    } else {
      assert (a + b)[1..] == a[1..] + b;
      TraceAppend(a[1..], b);
    }
  }

  lemma ConcatAssoc<T>(a: seq<T>, b: seq<T>, c: seq<T>)
    ensures (a + b) + c == a + (b + c)
  {
  }

  lemma ConcatTail<T>(a: seq<T>, b: seq<T>)
    requires |a| > 0
    ensures (a + b)[0] == a[0] && (a + b)[1..] == a[1..] + b
  {
  }

  /**
    Dispatching a listing is dispatching its first part and then the rest,
    starting from the cache the first part left.
  */
  lemma {:induction false} RunSplit(cache: Cache, store: Store, bucket: string,
                                    objs1: seq<ObjectSummary>, objs2: seq<ObjectSummary>,
                                    s1: seq<WorkerId>, s2: seq<WorkerId>)
    requires |s1| == |objs1| && |s2| == |objs2|
    ensures var first := Run(cache, store, bucket, objs1, s1);
      var second := Run(first.cache, store, bucket, objs2, s2);
      Run(cache, store, bucket, objs1 + objs2, s1 + s2) == RunResult(second.cache, first.steps + second.steps)
    decreases |objs1|
  {
    var first := Run(cache, store, bucket, objs1, s1);
    var second := Run(first.cache, store, bucket, objs2, s2);
    if |objs1| == 0 {
      assert objs1 + objs2 == objs2 && s1 + s2 == s2;
      assert first.cache == cache && first.steps == [];
      assert first.steps + second.steps == second.steps;
    } else {
      ConcatTail(objs1, objs2);
      ConcatTail(s1, s2);
      var lookup := GetOrCreate(cache, s1[0]);
      var step := Remediate(store, bucket, lookup.handle, objs1[0]);
      var restFirst := Run(lookup.cache, store, bucket, objs1[1..], s1[1..]);
      assert first == RunResult(restFirst.cache, [step] + restFirst.steps);
      var restWhole := Run(lookup.cache, store, bucket, objs1[1..] + objs2, s1[1..] + s2);
      assert Run(cache, store, bucket, objs1 + objs2, s1 + s2) == RunResult(restWhole.cache, [step] + restWhole.steps);
      RunSplit(lookup.cache, store, bucket, objs1[1..], objs2, s1[1..], s2);
      assert restWhole == RunResult(second.cache, restFirst.steps + second.steps);
      ConcatAssoc([step], restFirst.steps, second.steps);
    }
  }

  /** The trace of a listing is the trace of its first part followed by the trace of the rest. */
  lemma RunSplitTrace(cache: Cache, store: Store, bucket: string,
                      objs1: seq<ObjectSummary>, objs2: seq<ObjectSummary>,
                      s1: seq<WorkerId>, s2: seq<WorkerId>)
    requires |s1| == |objs1| && |s2| == |objs2|
    ensures var first := Run(cache, store, bucket, objs1, s1);
      var second := Run(first.cache, store, bucket, objs2, s2);
      Trace(Run(cache, store, bucket, objs1 + objs2, s1 + s2).steps) == Trace(first.steps) + Trace(second.steps)
  {
    var first := Run(cache, store, bucket, objs1, s1);
    RunSplit(cache, store, bucket, objs1, objs2, s1, s2);
    TraceAppend(first.steps, Run(first.cache, store, bucket, objs2, s2).steps);
  }

  lemma {:induction false} AclKeysAppend(a: seq<Effect>, b: seq<Effect>)
    ensures AclKeys(a + b) == AclKeys(a) + AclKeys(b)
    decreases |a|
  {
    if |a| == 0 {
      assert a + b == b;
    } else {
      assert (a + b)[1..] == a[1..] + b;
      AclKeysAppend(a[1..], b);
    }
  }

  lemma {:induction false} CopyKeysAppend(a: seq<Effect>, b: seq<Effect>)
    ensures CopyKeys(a + b) == CopyKeys(a) + CopyKeys(b)
    decreases |a|
  {
    if |a| == 0 {
      assert a + b == b;
    } else {
      assert (a + b)[1..] == a[1..] + b;
      CopyKeysAppend(a[1..], b);
    }
  }

  /**
    Object i is processed with the handle its worker holds at the end of the
    run (handles never change once created), and the cache ends as the
    workers' lookups leave it.
  */
  lemma {:induction false} RunUsesWorkerHandles(cache: Cache, store: Store, bucket: string, objs: seq<ObjectSummary>, schedule: seq<WorkerId>)
    requires |schedule| == |objs|
    ensures var r := Run(cache, store, bucket, objs, schedule);
      && r.cache == LookupAll(cache, schedule)
      && forall i :: 0 <= i < |objs| ==>
           && schedule[i] in r.cache.handles
           && r.steps[i] == Remediate(store, bucket, r.cache.handles[schedule[i]], objs[i])
    decreases |objs|
  {
    if |objs| > 0 {
      var lookup := GetOrCreate(cache, schedule[0]);
      var r := Run(cache, store, bucket, objs, schedule);
      var rest := Run(lookup.cache, store, bucket, objs[1..], schedule[1..]);
      RunUsesWorkerHandles(lookup.cache, store, bucket, objs[1..], schedule[1..]);
      LookupAllGrows(lookup.cache, schedule[1..]);
      assert r.steps == [Remediate(store, bucket, lookup.handle, objs[0])] + rest.steps;
      forall i | 0 <= i < |objs|
        ensures schedule[i] in r.cache.handles
        ensures r.steps[i] == Remediate(store, bucket, r.cache.handles[schedule[i]], objs[i])
      {
        if i > 0 {
          assert schedule[1..][i - 1] == schedule[i];
          assert objs[1..][i - 1] == objs[i];
          assert r.steps[i] == rest.steps[i - 1];
        }
      }
    }
  }

  /**
    Whether an object ends entitled depends on that object alone: another
    object's refusal neither stops the run nor changes this one's outcome.
  */
  lemma RunOutcomes(cache: Cache, store: Store, bucket: string, objs: seq<ObjectSummary>, schedule: seq<WorkerId>)
    requires |schedule| == |objs|
    ensures var r := Run(cache, store, bucket, objs, schedule);
      forall i :: 0 <= i < |objs| ==>
        && r.steps[i].outcome.key == objs[i].key
        && (r.steps[i].outcome.Entitled? <==> Accepts(store, objs[i].key))
        && (r.steps[i].outcome.AclRefused? <==> objs[i].key in store.aclRefused)
  {
    RunUsesWorkerHandles(cache, store, bucket, objs, schedule);
  }

  /** In the whole trace of a run, every copy directly follows the ACL put on the same object. */
  lemma {:induction false} RunAclBeforeCopy(cache: Cache, store: Store, bucket: string, objs: seq<ObjectSummary>, schedule: seq<WorkerId>)
    requires |schedule| == |objs|
    ensures AclBeforeCopy(Trace(Run(cache, store, bucket, objs, schedule).steps))
    decreases |objs|
  {
    if |objs| > 0 {
      var lookup := GetOrCreate(cache, schedule[0]);
      var step := Remediate(store, bucket, lookup.handle, objs[0]);
      var rest := Run(lookup.cache, store, bucket, objs[1..], schedule[1..]);
      RunAclBeforeCopy(lookup.cache, store, bucket, objs[1..], schedule[1..]);
      assert ([step] + rest.steps)[1..] == rest.steps;
      AclBeforeCopyAppend(step.effects, Trace(rest.steps));
    }
  }

  /** One `process` call puts the ACL of its object once, and copies it once if that put was accepted. */
  lemma StepKeys(store: Store, bucket: string, h: Handle, obj: ObjectSummary)
    ensures AclKeys(Remediate(store, bucket, h, obj).effects) == [obj.key]
    ensures CopyKeys(Remediate(store, bucket, h, obj).effects) == (if obj.key in store.aclRefused then [] else [obj.key])
  {
    var e := Remediate(store, bucket, h, obj).effects;
    if |e| == 2 {
      assert e[1..][1..] == [];
      assert e[1..][0].CopyObject?;
      assert AclKeys(e[1..]) == [];
      assert CopyKeys(e[1..]) == [obj.key];
    } else {
      assert e[1..] == [];
    }
  }

  /** The trace of a non-empty run is the first object's calls followed by the rest of the run's. */
  lemma RunTraceCons(cache: Cache, store: Store, bucket: string, objs: seq<ObjectSummary>, schedule: seq<WorkerId>)
    requires |schedule| == |objs| > 0
    ensures var lookup := GetOrCreate(cache, schedule[0]);
      Trace(Run(cache, store, bucket, objs, schedule).steps)
        == Remediate(store, bucket, lookup.handle, objs[0]).effects
           + Trace(Run(lookup.cache, store, bucket, objs[1..], schedule[1..]).steps)
  {
    var lookup := GetOrCreate(cache, schedule[0]);
    var step := Remediate(store, bucket, lookup.handle, objs[0]);
    var rest := Run(lookup.cache, store, bucket, objs[1..], schedule[1..]);
    assert ([step] + rest.steps)[1..] == rest.steps;
  }

  /** The ACL puts of a run name exactly the listed keys, once each, in listing order. */
  lemma {:induction false} RunAclKeys(cache: Cache, store: Store, bucket: string, objs: seq<ObjectSummary>, schedule: seq<WorkerId>)
    requires |schedule| == |objs|
    ensures AclKeys(Trace(Run(cache, store, bucket, objs, schedule).steps)) == Keys(objs)
    decreases |objs|
  {
    if |objs| > 0 {
      var lookup := GetOrCreate(cache, schedule[0]);
      var effects := Remediate(store, bucket, lookup.handle, objs[0]).effects;
      var rest := Trace(Run(lookup.cache, store, bucket, objs[1..], schedule[1..]).steps);
      RunAclKeys(lookup.cache, store, bucket, objs[1..], schedule[1..]);
      RunTraceCons(cache, store, bucket, objs, schedule);
      AclKeysAppend(effects, rest);
      StepKeys(store, bucket, lookup.handle, objs[0]);
      KeysCons(objs);
    }
  }

  /** The copies of a run name exactly the listed keys whose ACL put was accepted, in listing order. */
  lemma {:induction false} RunCopyKeys(cache: Cache, store: Store, bucket: string, objs: seq<ObjectSummary>, schedule: seq<WorkerId>)
    requires |schedule| == |objs|
    ensures CopyKeys(Trace(Run(cache, store, bucket, objs, schedule).steps)) == AclAcceptedKeys(store, objs)
    decreases |objs|
  {
    if |objs| > 0 {
      var lookup := GetOrCreate(cache, schedule[0]);
      var effects := Remediate(store, bucket, lookup.handle, objs[0]).effects;
      var rest := Trace(Run(lookup.cache, store, bucket, objs[1..], schedule[1..]).steps);
      RunCopyKeys(lookup.cache, store, bucket, objs[1..], schedule[1..]);
      RunTraceCons(cache, store, bucket, objs, schedule);
      CopyKeysAppend(effects, rest);
      StepKeys(store, bucket, lookup.handle, objs[0]);
    }
  }

  /**
    Each listed object gets exactly one ACL put, in listing order, and exactly
    one copy when its ACL put was accepted: no object is attempted twice and
    none is skipped.
  */
  lemma EachObjectOnce(cache: Cache, store: Store, bucket: string, objs: seq<ObjectSummary>, schedule: seq<WorkerId>)
    requires |schedule| == |objs|
    ensures AclKeys(Trace(Run(cache, store, bucket, objs, schedule).steps)) == Keys(objs)
    ensures CopyKeys(Trace(Run(cache, store, bucket, objs, schedule).steps)) == AclAcceptedKeys(store, objs)
  {
    RunAclKeys(cache, store, bucket, objs, schedule);
    RunCopyKeys(cache, store, bucket, objs, schedule);
  }

  /** When every step issued two calls, the trace is the steps' pairs laid end to end. */
  lemma {:induction false} TraceOfPairs(steps: seq<Step>)
    requires forall i :: 0 <= i < |steps| ==> |steps[i].effects| == 2
    ensures |Trace(steps)| == 2 * |steps|
    ensures forall i :: 0 <= i < |steps| ==>
      Trace(steps)[2 * i] == steps[i].effects[0] && Trace(steps)[2 * i + 1] == steps[i].effects[1]
    decreases |steps|
  {
    if |steps| > 0 {
      TraceOfPairs(steps[1..]);
      forall i | 0 < i < |steps|
        ensures Trace(steps)[2 * i] == steps[i].effects[0] && Trace(steps)[2 * i + 1] == steps[i].effects[1]
      {
        assert steps[1..][i - 1] == steps[i];
        assert Trace(steps)[2 * i] == Trace(steps[1..])[2 * (i - 1)];
        assert Trace(steps)[2 * i + 1] == Trace(steps[1..])[2 * (i - 1) + 1];
      }
    }
  }

  /**
    With a store that accepts every listed object, the trace is exactly two
    calls per object in listing order: the ACL put on the worker's handle,
    then the self-copy with replaced metadata; every object ends entitled.
  */
  lemma RunAccepted(cache: Cache, store: Store, bucket: string, objs: seq<ObjectSummary>, schedule: seq<WorkerId>)
    requires |schedule| == |objs|
    requires forall i :: 0 <= i < |objs| ==> Accepts(store, objs[i].key)
    ensures var r := Run(cache, store, bucket, objs, schedule);
      var t := Trace(r.steps);
      && |t| == 2 * |objs|
      && forall i :: 0 <= i < |objs| ==>
           && schedule[i] in r.cache.handles
           && t[2 * i] == PutObjectAcl(r.cache.handles[schedule[i]], bucket, objs[i].key, BucketOwnerFullControl)
           && t[2 * i + 1] == CopyObject(bucket, objs[i].key, CopySource(bucket, objs[i].key), Replace)
           && r.steps[i].outcome == Entitled(objs[i].key)
  {
    var r := Run(cache, store, bucket, objs, schedule);
    RunUsesWorkerHandles(cache, store, bucket, objs, schedule);
    TraceOfPairs(r.steps);
  }

  /**
    Starting from the empty `resources` dictionary, a run constructs one
    handle per distinct worker that processed an object, so never more than
    the pool has workers nor more than there are objects.
  */
  lemma RunHandles(store: Store, bucket: string, objs: seq<ObjectSummary>, schedule: seq<WorkerId>, pool: set<WorkerId>)
    requires |schedule| == |objs|
    requires Workers(schedule) <= pool
    ensures var r := Run(Empty, store, bucket, objs, schedule);
      && Valid(r.cache)
      && r.cache.built == |Workers(schedule)|
      && r.cache.built <= |pool|
      && r.cache.built <= |objs|
  {
    RunUsesWorkerHandles(Empty, store, bucket, objs, schedule);
    OneHandlePerWorker(schedule);
    LookupAllValid(Empty, schedule);
    SubsetCardinality(Workers(schedule), pool);
  }

  /**
    `main` (lines 38-110): normalise the arguments, list the pages the store
    returns for that scope, and dispatch every listed object, starting with
    the empty `resources` dictionary.
  */
  function UpdateFolderOwner(args: Args, pages: seq<Page>, schedule: seq<WorkerId>, store: Store): (s: Session)
    requires |schedule| == |Flatten(pages)|
    ensures s.scope.prefix == StripLeadingDelimiter(args.prefix)
    ensures s.scope.startAfter == EffectiveStartAfter(s.scope.prefix, args.startAfter)
    ensures s.objects == Flatten(pages)
    ensures |s.run.steps| == |s.objects|
    ensures forall i :: 0 <= i < |s.objects| ==>
      && s.run.steps[i].outcome.key == s.objects[i].key
      && (s.run.steps[i].outcome.Entitled? <==> Accepts(store, s.objects[i].key))
  {
    var objs := Flatten(pages);
    RunOutcomes(Empty, store, args.bucketName, objs, schedule);
    Session(Normalise(args.prefix, args.startAfter), objs, Run(Empty, store, args.bucketName, objs, schedule))
  }

  /**
    A run over an empty listing issues no remote call and builds no handle;
    over any listing, each object of each page gets one ACL put, in page
    order, and copies only ever follow their ACL put.
  */
  lemma UpdateFolderOwnerTrace(args: Args, pages: seq<Page>, schedule: seq<WorkerId>, store: Store)
    requires |schedule| == |Flatten(pages)|
    ensures var s := UpdateFolderOwner(args, pages, schedule, store);
      && AclKeys(Trace(s.run.steps)) == Keys(Flatten(pages))
      && AclBeforeCopy(Trace(s.run.steps))
      && (Flatten(pages) == [] ==> Trace(s.run.steps) == [] && s.run.cache == Empty)
      && s.run.cache == LookupAll(Empty, schedule)
      && forall i :: 0 <= i < |s.objects| ==>
           && schedule[i] in s.run.cache.handles
           && s.run.steps[i] == Remediate(store, args.bucketName, s.run.cache.handles[schedule[i]], s.objects[i])
  {
    var objs := Flatten(pages);
    RunUsesWorkerHandles(Empty, store, args.bucketName, objs, schedule);
    EachObjectOnce(Empty, store, args.bucketName, objs, schedule);
    RunAclBeforeCopy(Empty, store, args.bucketName, objs, schedule);
  }
}
