/**
  The per-thread cache of boto3 resources of bin/s3-update-folder-owner.py
  (`resources`, line 35, and its use in `process`, lines 76-81). A thread
  identity is a `WorkerId`; constructing a resource (`boto3.resource('s3')`)
  is modelled by a counter: the n-th resource built is `Handle(n)`.
*/
module HandleCache {

  /** What `threading.get_ident()` returns. */
  type WorkerId = nat

  /** A worker-exclusive resource handle, named by its construction order. */
  datatype Handle = Handle(serial: nat)

  /** The `resources` dictionary, with the number of handles constructed so far. */
  datatype Cache = Cache(handles: map<WorkerId, Handle>, built: nat)

  /** The result of one lookup: the updated cache and the handle the worker uses. */
  datatype Lookup = Lookup(cache: Cache, handle: Handle)

  /** The cache as the script starts it (line 35). */
  const Empty: Cache := Cache(map[], 0)

  /**
    Every constructed handle is stored for exactly one worker: one entry per
    construction, serials below the construction count, no handle shared.
  */
  predicate Valid(c: Cache) {
    && |c.handles| == c.built
    && (forall w :: w in c.handles ==> c.handles[w].serial < c.built)
    && (forall v, w :: v in c.handles && w in c.handles && v != w ==> c.handles[v] != c.handles[w])
  }

  /** The worker identities that occur in a schedule. */
  function Workers(ws: seq<WorkerId>): set<WorkerId> {
    set i | 0 <= i < |ws| :: ws[i]
  }

  /**
    Lines 76-81: the stored handle if the worker has one, otherwise a freshly
    constructed handle, which is stored for that worker.
  */
  function GetOrCreate(c: Cache, w: WorkerId): (r: Lookup)
    ensures w in r.cache.handles && r.cache.handles[w] == r.handle
    ensures w in c.handles ==> r.cache == c && r.handle == c.handles[w]
    ensures w !in c.handles ==> r.cache.built == c.built + 1
    ensures w !in c.handles && Valid(c) ==> forall v :: v in c.handles ==> c.handles[v] != r.handle
    ensures r.cache.handles.Keys == c.handles.Keys + {w}
    ensures forall v :: v in c.handles ==> r.cache.handles[v] == c.handles[v]
    ensures Valid(c) ==> Valid(r.cache)
  {
    if w in c.handles then
      Lookup(c, c.handles[w])
    else
      var h := Handle(c.built);
      var handles := c.handles[w := h];
      assert handles.Keys == c.handles.Keys + {w};
      Lookup(Cache(handles, c.built + 1), h)
  }

  /** The cache after a sequence of lookups, in order. */
  function LookupAll(c: Cache, ws: seq<WorkerId>): (r: Cache)
    ensures forall i :: 0 <= i < |ws| ==> ws[i] in r.handles
    ensures forall v :: v in c.handles ==> v in r.handles && r.handles[v] == c.handles[v]
    ensures c.built <= r.built <= c.built + |ws|
    decreases |ws|
  {
    if |ws| == 0 then c else LookupAll(GetOrCreate(c, ws[0]).cache, ws[1..])
  }

  lemma WorkersCons(ws: seq<WorkerId>)
    requires |ws| > 0
    ensures Workers(ws) == {ws[0]} + Workers(ws[1..])
  {
  }

  /**
    Repeated lookups only add entries: afterwards every worker of the schedule
    has a handle, and handles stored earlier are untouched.
  */
  lemma {:induction false} LookupAllGrows(c: Cache, ws: seq<WorkerId>)
    ensures LookupAll(c, ws).handles.Keys == c.handles.Keys + Workers(ws)
    ensures forall v :: v in c.handles ==> LookupAll(c, ws).handles[v] == c.handles[v]
    decreases |ws|
  {
    if |ws| > 0 {
      LookupAllGrows(GetOrCreate(c, ws[0]).cache, ws[1..]);
      WorkersCons(ws);
    }
  }

  /** Repeated lookups keep the cache valid: no handle is ever shared by two workers. */
  lemma {:induction false} LookupAllValid(c: Cache, ws: seq<WorkerId>)
    requires Valid(c)
    ensures Valid(LookupAll(c, ws))
    decreases |ws|
  {
    if |ws| > 0 {
      LookupAllValid(GetOrCreate(c, ws[0]).cache, ws[1..]);
    }
  }

  /**
    A worker never receives more than one constructed handle: starting from
    the empty cache, the number of handles built equals the number of
    distinct workers that asked, however often each asked.
  */
  lemma OneHandlePerWorker(ws: seq<WorkerId>)
    ensures LookupAll(Empty, ws).built == |Workers(ws)|
    ensures LookupAll(Empty, ws).built <= |ws|
  {
    LookupAllGrows(Empty, ws);
    LookupAllValid(Empty, ws);
    WorkersBound(ws);
  }

  lemma {:induction false} WorkersBound(ws: seq<WorkerId>)
    ensures |Workers(ws)| <= |ws|
    decreases |ws|
  {
    if |ws| > 0 {
      WorkersBound(ws[1..]);
      WorkersCons(ws);
      if ws[0] in Workers(ws[1..]) {
        assert Workers(ws) == Workers(ws[1..]);
      } else {
        assert Workers(ws) == Workers(ws[1..]) + {ws[0]};
      }
    }
  }

  lemma {:induction false} SubsetCardinality(a: set<WorkerId>, b: set<WorkerId>)
    requires a <= b
    ensures |a| <= |b|
    decreases |a|
  {
    if a != {} {
      var x :| x in a;
      SubsetCardinality(a - {x}, b - {x});
    }
  }

  /** Once a worker has a handle, every later lookup by that worker returns it. */
  lemma HandleIsStable(c: Cache, ws: seq<WorkerId>, w: WorkerId)
    requires w in c.handles
    ensures GetOrCreate(LookupAll(c, ws), w) == Lookup(LookupAll(c, ws), c.handles[w])
  {
  }
}
