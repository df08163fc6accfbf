/** Shipping an index file through Valkey: chunks, then the manifest, then the
    old generation away, against any number of workers fetching meanwhile. */
module Transport {
  import opened Wrappers
  import opened Names

  type Content = seq<Byte>

  /** The checksum of a file. Two files have one checksum only when they are the same. */
  datatype Digest = Digest(of: Content)

  datatype Manifest = Manifest(builtAt: nat, bytes: nat, digest: Digest, chunks: nat, chunkBytes: nat)

  /** The file cut as it is read, block after block. */
  function Blocks(file: Content, size: nat): (blocks: seq<Content>)
    requires size > 0
    decreases |file|
  {
    if file == [] then []
    else if |file| <= size then [file]
    else [file[..size]] + Blocks(file[size..], size)
  }

  lemma {:induction false} ConcatFirst(first: Content, blocks: seq<Content>)
    ensures Concat([first] + blocks) == first + Concat(blocks)
  {
    var all := [first] + blocks;
    var n := |blocks|;
    assert Concat(all) == Concat(all[..n]) + all[n];
    if n == 0 {
      assert all[..0] == [] && Concat(all[..0]) == [];
    } else {
      ConcatFirst(first, blocks[..n - 1]);
      assert all[..n] == [first] + blocks[..n - 1] && all[n] == blocks[n - 1];
    }
  }

  /** The blocks put together again are the file. */
  lemma {:induction false} ConcatBlocks(file: Content, size: nat)
    requires size > 0
    ensures Concat(Blocks(file, size)) == file
    decreases |file|
  {
    if 0 < |file| <= size {
      ConcatFirst(file, []);
    } else if file != [] {
      ConcatBlocks(file[size..], size);
      ConcatFirst(file[..size], Blocks(file[size..], size));
      assert file == file[..size] + file[size..];
    }
  }

  function Described(file: Content, builtAt: nat, size: nat): Manifest
    requires size > 0
  {
    Manifest(builtAt, |file|, Digest(file), |Blocks(file, size)|, size)
  }

  // -- the machine -------------------------------------------------------------

  type Chunks = map<(nat, nat), Content>

  datatype Publisher =
    | Quiet
    | Uploading(file: Content, builtAt: nat, size: nat, n: nat)
    | Deleting(previous: Manifest, n: nat)

  datatype Fetch = Idle | Downloading(manifest: Manifest, n: nat, got: Content) | Placed(manifest: Manifest)

  datatype Outcome = Unasked | NothingPublished | UpToDate | Fetched | Missing(n: nat) | WrongSize | WrongDigest

  /** One worker's file, the generation its marker names, and its fetch under way. */
  datatype Worker = Worker(file: Option<Content>, marker: Option<nat>, fetch: Fetch, last: Outcome)

  /** What was published: the manifest and the file it stands for, at each flip. */
  datatype Generation = Generation(manifest: Manifest, file: Content)

  datatype World = World(chunks: Chunks, manifest: Option<Manifest>, publisher: Publisher, workers: seq<Worker>,
                         published: seq<Generation>, newest: int)

  datatype Event =
    | Begin(file: Content, builtAt: nat, size: nat)
    | Upload
    | Flip
    | Delete
    | Done
    | Crash
    | Look(w: nat)
    | Get(w: nat)
    | Place(w: nat)
    | Mark(w: nat)
    | Die(w: nat)

  predicate Enabled(s: World, e: Event) {
    match e
    case Begin(_, _, size) => s.publisher.Quiet? && size > 0
    case Upload => s.publisher.Uploading? && s.publisher.size > 0
                   && s.publisher.n < |Blocks(s.publisher.file, s.publisher.size)|
    case Flip => s.publisher.Uploading? && s.publisher.size > 0
                 && s.publisher.n == |Blocks(s.publisher.file, s.publisher.size)|
    case Delete => s.publisher.Deleting? && s.publisher.n < s.publisher.previous.chunks
    case Done => s.publisher.Deleting? && s.publisher.n >= s.publisher.previous.chunks
    case Crash => true
    case Look(w) => w < |s.workers| && s.workers[w].fetch.Idle?
    case Get(w) => w < |s.workers| && s.workers[w].fetch.Downloading?
                   && s.workers[w].fetch.n < s.workers[w].fetch.manifest.chunks
    case Place(w) => w < |s.workers| && s.workers[w].fetch.Downloading?
                     && s.workers[w].fetch.n >= s.workers[w].fetch.manifest.chunks
    case Mark(w) => w < |s.workers| && s.workers[w].fetch.Placed?
    case Die(w) => w < |s.workers|
  }

  /** The manifest flips, and the generation it named before is to go unless it is the same one. */
  function Flipped(s: World): World
    requires Enabled(s, Flip)
  {
    var p := s.publisher;
    var m := Described(p.file, p.builtAt, p.size);
    s.(manifest := Some(m), published := s.published + [Generation(m, p.file)],
       publisher := if s.manifest.Some? && s.manifest.value.builtAt != p.builtAt then Deleting(s.manifest.value, 0)
                    else Quiet)
  }

  function Looked(w: Worker, manifest: Option<Manifest>): Worker {
    match manifest
    case None => w.(last := NothingPublished)
    case Some(m) => if w.marker == Some(m.builtAt) then w.(last := UpToDate) else w.(fetch := Downloading(m, 0, []))
  }

  function Got(w: Worker, chunks: Chunks): Worker
    requires w.fetch.Downloading?
  {
    var key := (w.fetch.manifest.builtAt, w.fetch.n);
    if key !in chunks then w.(fetch := Idle, last := Missing(w.fetch.n))
    else w.(fetch := w.fetch.(n := w.fetch.n + 1, got := w.fetch.got + chunks[key]))
  }

  function PutInPlace(w: Worker): Worker
    requires w.fetch.Downloading?
  {
    var m := w.fetch.manifest;
    if |w.fetch.got| != m.bytes then w.(fetch := Idle, last := WrongSize)
    else if Digest(w.fetch.got) != m.digest then w.(fetch := Idle, last := WrongDigest)
    else w.(file := Some(w.fetch.got), fetch := Placed(m))
  }

  function Marked(w: Worker): Worker
    requires w.fetch.Placed?
  {
    w.(marker := Some(w.fetch.manifest.builtAt), fetch := Idle, last := Fetched)
  }

  function Next(s: World, e: Event): World
    requires Enabled(s, e)
  {
    match e
    case Begin(file, builtAt, size) =>
      s.(publisher := Uploading(file, builtAt, size, 0), newest := Max(s.newest, builtAt))
    case Upload =>
      var p := s.publisher;
      s.(chunks := s.chunks[(p.builtAt, p.n) := Blocks(p.file, p.size)[p.n]],
         publisher := Uploading(p.file, p.builtAt, p.size, p.n + 1))
    case Flip => Flipped(s)
    case Delete =>
      var p := s.publisher;
      s.(chunks := s.chunks - {(p.previous.builtAt, p.n)}, publisher := Deleting(p.previous, p.n + 1))
    case Done => s.(publisher := Quiet)
    case Crash => s.(publisher := Quiet)
    case Look(w) => s.(workers := s.workers[w := Looked(s.workers[w], s.manifest)])
    case Get(w) => s.(workers := s.workers[w := Got(s.workers[w], s.chunks)])
    case Place(w) => s.(workers := s.workers[w := PutInPlace(s.workers[w])])
    case Mark(w) => s.(workers := s.workers[w := Marked(s.workers[w])])
    case Die(w) => s.(workers := s.workers[w := s.workers[w].(fetch := Idle, last := Unasked)])
  }

  function Start(workers: nat): World {
    World(map[], None, Quiet, seq(workers, i => Worker(None, None, Idle, Unasked)), [], -1)
  }

  /** What a run of events from a world goes through, that world first. */
  ghost predicate Runs(worlds: seq<World>, events: seq<Event>) {
    && |worlds| == |events| + 1
    && forall i | 0 <= i < |events| :: Enabled(worlds[i], events[i]) && worlds[i + 1] == Next(worlds[i], events[i])
  }

  // -- what every run keeps ------------------------------------------------------

  predicate Present(chunks: Chunks, m: Manifest) {
    forall i | 0 <= i < m.chunks :: (m.builtAt, i) in chunks
  }

  predicate PublisherOk(p: Publisher, chunks: Chunks, manifest: Option<Manifest>) {
    match p
    case Quiet => true
    case Uploading(file, builtAt, size, n) =>
      && size > 0 && n <= |Blocks(file, size)|
      && forall i | 0 <= i < n :: (builtAt, i) in chunks && chunks[(builtAt, i)] == Blocks(file, size)[i]
    case Deleting(previous, n) => manifest.Some? && manifest.value.builtAt != previous.builtAt
  }

  predicate Sound(g: Generation) {
    g.manifest.chunkBytes > 0 && g.manifest == Described(g.file, g.manifest.builtAt, g.manifest.chunkBytes)
  }

  /** A manifest once published, whose file is the one its checksum is of. */
  predicate Known(m: Manifest, published: seq<Generation>) {
    exists g <- published :: g.manifest == m && Sound(g)
  }

  predicate Whole(file: Content, published: seq<Generation>) {
    exists g <- published :: g.file == file && Sound(g)
  }

  predicate WorkerOk(w: Worker, published: seq<Generation>) {
    && (w.file.Some? ==> Whole(w.file.value, published))
    && (w.fetch.Downloading? || w.fetch.Placed? ==> Known(w.fetch.manifest, published))
  }

  predicate Inv(s: World) {
    && PublisherOk(s.publisher, s.chunks, s.manifest)
    && (s.manifest.Some? ==> Present(s.chunks, s.manifest.value) && Known(s.manifest.value, s.published))
    && forall w <- s.workers :: WorkerOk(w, s.published)
  }

  lemma KnownStill(m: Manifest, published: seq<Generation>, g: Generation)
    requires Known(m, published)
    ensures Known(m, published + [g])
  {
    var x :| x in published && x.manifest == m && Sound(x);
    assert x in published + [g];
  }

  lemma WorkerStill(w: Worker, published: seq<Generation>, g: Generation)
    requires WorkerOk(w, published)
    ensures WorkerOk(w, published + [g])
  {
    if w.file.Some? {
      var x :| x in published && x.file == w.file.value && Sound(x);
      assert x in published + [g];
    }
    if w.fetch.Downloading? || w.fetch.Placed? { KnownStill(w.fetch.manifest, published, g); }
  }

  lemma FlipKeeps(s: World)
    requires Inv(s) && Enabled(s, Flip)
    ensures Inv(Flipped(s))
  {
    var p := s.publisher;
    var t := Flipped(s);
    var g := t.published[|s.published|];
    assert g in t.published && Sound(g);
    forall w <- t.workers ensures WorkerOk(w, t.published) { WorkerStill(w, s.published, g); }
  }

  /** One worker's step. */
  lemma WorkerKeeps(s: World, e: Event)
    requires Inv(s) && Enabled(s, e) && (e.Look? || e.Get? || e.Place? || e.Mark? || e.Die?)
    ensures Inv(Next(s, e))
  {
    var t := Next(s, e);
    var before := s.workers[e.w];
    assert before in s.workers;
    assert WorkerOk(t.workers[e.w], t.published) by {
      if e.Place? {
        var g :| g in s.published && g.manifest == before.fetch.manifest && Sound(g);
        assert t.workers[e.w].file == before.file || t.workers[e.w].file == Some(g.file);
      }
    }
    forall w <- t.workers ensures WorkerOk(w, t.published) {
      var i :| 0 <= i < |t.workers| && t.workers[i] == w;
      if i != e.w { assert s.workers[i] in s.workers; }
    }
  }

  /** Every step, of a publisher or a worker, crashes too, keeps every chunk the
      manifest names and every worker's file one whole published file. */
  lemma StepKeeps(s: World, e: Event)
    requires Inv(s) && Enabled(s, e)
    ensures Inv(Next(s, e))
  {
    if e.Flip? { FlipKeeps(s); }
    else if e.Look? || e.Get? || e.Place? || e.Mark? || e.Die? { WorkerKeeps(s, e); }
  }

  lemma {:induction false} RunKeeps(worlds: seq<World>, events: seq<Event>, k: nat)
    requires Runs(worlds, events) && Inv(worlds[0]) && k < |worlds|
    ensures Inv(worlds[k])
  {
    if k > 0 {
      RunKeeps(worlds, events, k - 1);
      StepKeeps(worlds[k - 1], events[k - 1]);
    }
  }

  lemma StartHolds(workers: nat)
    ensures Inv(Start(workers))
  {
    assert forall w <- Start(workers).workers :: w == Worker(None, None, Idle, Unasked);
  }

  /** In every run from the start, whatever crashes, every chunk the manifest
      names is there, and a worker's file is one whole published file. */
  lemma AlwaysWhole(workers: nat, worlds: seq<World>, events: seq<Event>, k: nat)
    requires Runs(worlds, events) && worlds[0] == Start(workers) && k < |worlds|
    ensures worlds[k].manifest.Some? ==> Present(worlds[k].chunks, worlds[k].manifest.value)
    ensures forall w <- worlds[k].workers :: w.file.Some? ==> Whole(w.file.value, worlds[k].published)
  {
    StartHolds(workers);
    RunKeeps(worlds, events, k);
  }

  // -- a fetch during which no publish completes ---------------------------------

  /** The chunks of a generation, one after another. */
  function Gathered(chunks: Chunks, builtAt: nat, n: nat): Content
    requires forall i | 0 <= i < n :: (builtAt, i) in chunks
  {
    if n == 0 then [] else Gathered(chunks, builtAt, n - 1) + chunks[(builtAt, n - 1)]
  }

  /** The chunks of the manifest hold the file its checksum is of. */
  predicate Right(chunks: Chunks, m: Manifest) {
    && m.chunkBytes > 0 && m == Described(m.digest.of, m.builtAt, m.chunkBytes)
    && forall i | 0 <= i < m.chunks ::
         (m.builtAt, i) in chunks && chunks[(m.builtAt, i)] == Blocks(m.digest.of, m.chunkBytes)[i]
  }

  lemma {:induction false} GatheredRight(chunks: Chunks, m: Manifest, n: nat)
    requires Right(chunks, m) && n <= m.chunks
    ensures Gathered(chunks, m.builtAt, n) == Concat(Blocks(m.digest.of, m.chunkBytes)[..n])
    ensures n == m.chunks ==> Gathered(chunks, m.builtAt, n) == m.digest.of
  {
    var blocks := Blocks(m.digest.of, m.chunkBytes);
    if n > 0 {
      GatheredRight(chunks, m, n - 1);
      assert blocks[..n][..n - 1] == blocks[..n - 1];
    }
    assert blocks[..m.chunks] == blocks;
    ConcatBlocks(m.digest.of, m.chunkBytes);
  }

  predicate Settled(w: Worker, m: Manifest) {
    w.file == Some(m.digest.of) && w.marker == Some(m.builtAt)
  }

  /** The worker has no fetch under way. */
  predicate Ended(s: World, w: nat) {
    w < |s.workers| && s.workers[w].fetch.Idle?
  }

  /** No publish completes, the worker does not die, and a publish under the same number begins only if `reuse`. */
  predicate Undisturbing(e: Event, w: nat, builtAt: nat, reuse: bool) {
    !e.Flip? && e != Die(w) && (e.Begin? && e.builtAt == builtAt ==> reuse)
  }

  /** A fetch from this world on: it begins with a look at the manifest, and has ended. */
  ghost predicate Fetching(worlds: seq<World>, events: seq<Event>, s: World, w: nat, m: Manifest, reuse: bool) {
    && Runs(worlds, events) && worlds[0] == s && events != [] && events[0] == Look(w)
    && (forall e <- events :: Undisturbing(e, w, m.builtAt, reuse))
    && Ended(worlds[|events|], w)
  }

  /** What an upload under way has yet to write over the manifest's chunks is what they hold. */
  predicate Harmless(p: Publisher, chunks: Chunks, m: Manifest)
    requires Present(chunks, m)
  {
    p.Uploading? && p.builtAt == m.builtAt && p.size > 0 ==>
      forall i | p.n <= i < |Blocks(p.file, p.size)| && i < m.chunks ::
        Blocks(p.file, p.size)[i] == chunks[(m.builtAt, i)]
  }

  /** All of it to be seen before the fetch: a marker that names the
      generation stands beside its file; or it names another, the chunks under
      the number make up the file, no upload under way changes one of them,
      and, unless there is none to change, none may begin. */
  predicate Sure(s: World, w: nat, m: Manifest, reuse: bool)
    requires w < |s.workers| && Present(s.chunks, m)
  {
    if s.workers[w].marker == Some(m.builtAt) then s.workers[w].file == Some(m.digest.of)
    else
      && Gathered(s.chunks, m.builtAt, m.chunks) == m.digest.of
      && Harmless(s.publisher, s.chunks, m)
      && (reuse ==> m.chunks == 0)
  }

  /** A fetch of the manifest on its way over these chunks, or at its end. */
  predicate OnWay(w: Worker, chunks: Chunks, m: Manifest)
    requires Present(chunks, m)
  {
    match w.fetch
    case Idle => Settled(w, m)
    case Downloading(of, n, got) => of == m && n <= m.chunks && got == Gathered(chunks, m.builtAt, n)
    case Placed(of) => of == m && w.file == Some(m.digest.of)
  }

  /** The manifest's chunks are still these. */
  predicate Unchanged(now: Chunks, chunks: Chunks, m: Manifest)
    requires Present(chunks, m)
  {
    forall i | 0 <= i < m.chunks :: (m.builtAt, i) in now && now[(m.builtAt, i)] == chunks[(m.builtAt, i)]
  }

  /** The manifest and its chunks stay as they are, and so they will. */
  predicate Steady(s: World, chunks: Chunks, m: Manifest)
    requires Present(chunks, m)
  {
    Inv(s) && s.manifest == Some(m) && Unchanged(s.chunks, chunks, m) && Harmless(s.publisher, chunks, m)
  }

  lemma SteadyStep(s: World, e: Event, w: nat, chunks: Chunks, m: Manifest, reuse: bool)
    requires Present(chunks, m) && Steady(s, chunks, m)
    requires Enabled(s, e) && Undisturbing(e, w, m.builtAt, reuse) && (reuse ==> m.chunks == 0)
    ensures Steady(Next(s, e), chunks, m)
  {
    StepKeeps(s, e);
  }

  lemma ManifestBytes(s: World, m: Manifest)
    requires Inv(s) && s.manifest == Some(m)
    ensures m.bytes == |m.digest.of|
  {
    var g :| g in s.published && g.manifest == m && Sound(g);
  }

  lemma OnWayStep(s: World, e: Event, w: nat, chunks: Chunks, m: Manifest, reuse: bool)
    requires Present(chunks, m) && Steady(s, chunks, m) && Gathered(chunks, m.builtAt, m.chunks) == m.digest.of
    requires Enabled(s, e) && Undisturbing(e, w, m.builtAt, reuse)
    requires w < |s.workers| && OnWay(s.workers[w], chunks, m)
    ensures |Next(s, e).workers| == |s.workers| && OnWay(Next(s, e).workers[w], chunks, m)
  {
    ManifestBytes(s, m);
  }

  /** From its look at the manifest on, a fetch is on its way to that generation. */
  lemma {:induction false} Chase(worlds: seq<World>, events: seq<Event>, w: nat, m: Manifest, reuse: bool, k: nat)
    requires Runs(worlds, events) && 0 < k < |worlds| && w < |worlds[0].workers|
    requires Inv(worlds[0]) && worlds[0].manifest == Some(m) && Sure(worlds[0], w, m, reuse)
    requires worlds[0].workers[w].marker != Some(m.builtAt)
    requires events[0] == Look(w) && forall e <- events :: Undisturbing(e, w, m.builtAt, reuse)
    ensures Steady(worlds[k], worlds[0].chunks, m)
    ensures |worlds[k].workers| == |worlds[0].workers| && OnWay(worlds[k].workers[w], worlds[0].chunks, m)
  {
    var e := events[k - 1];
    assert e in events;
    if k > 1 {
      Chase(worlds, events, w, m, reuse, k - 1);
      OnWayStep(worlds[k - 1], e, w, worlds[0].chunks, m, reuse);
    }
    SteadyStep(worlds[k - 1], e, w, worlds[0].chunks, m, reuse);
  }

  /** A worker whose marker names the generation never does anything again. */
  lemma {:induction false} Stays(worlds: seq<World>, events: seq<Event>, w: nat, m: Manifest, reuse: bool, k: nat)
    requires Runs(worlds, events) && k < |worlds| && w < |worlds[0].workers| && worlds[0].manifest == Some(m)
    requires Ended(worlds[0], w) && worlds[0].workers[w].marker == Some(m.builtAt)
    requires forall e <- events :: Undisturbing(e, w, m.builtAt, reuse)
    ensures worlds[k].manifest == Some(m) && Ended(worlds[k], w)
    ensures worlds[k].workers[w].file == worlds[0].workers[w].file
    ensures worlds[k].workers[w].marker == worlds[0].workers[w].marker
  {
    if k > 0 {
      Stays(worlds, events, w, m, reuse, k - 1);
      assert events[k - 1] in events;
    }
  }

  lemma SureSettles(worlds: seq<World>, events: seq<Event>, s: World, w: nat, m: Manifest, reuse: bool)
    requires Inv(s) && s.manifest == Some(m) && w < |s.workers| && Sure(s, w, m, reuse)
    requires Fetching(worlds, events, s, w, m, reuse)
    ensures worlds[|events|].manifest == Some(m) && Settled(worlds[|events|].workers[w], m)
  {
    if s.workers[w].marker == Some(m.builtAt) { Stays(worlds, events, w, m, reuse, |events|); }
    else { Chase(worlds, events, w, m, reuse, |events|); }
  }

  // -- and where it is not sure, a fetch that fails --------------------------------

  /** Files that differ in one chunk differ. */
  lemma {:induction false} OneChunkTells(chunks: Chunks, others: Chunks, builtAt: nat, n: nat, i: nat)
    requires forall j | 0 <= j < n :: (builtAt, j) in chunks && (builtAt, j) in others
    requires forall j | 0 <= j < n && j != i :: chunks[(builtAt, j)] == others[(builtAt, j)]
    requires i < n && chunks[(builtAt, i)] != others[(builtAt, i)]
    ensures Gathered(chunks, builtAt, n) != Gathered(others, builtAt, n)
  {
    var a, b := Gathered(chunks, builtAt, n - 1), Gathered(others, builtAt, n - 1);
    var x, y := chunks[(builtAt, n - 1)], others[(builtAt, n - 1)];
    if i == n - 1 {
      SameGathered(chunks, others, builtAt, n - 1);
      assert (a + x)[|a|..] == x && (b + y)[|b|..] == y;
    } else {
      OneChunkTells(chunks, others, builtAt, n - 1, i);
      assert (a + x)[..|a|] == a && (b + y)[..|b|] == b;
    }
  }

  lemma {:induction false} SameGathered(chunks: Chunks, others: Chunks, builtAt: nat, n: nat)
    requires forall j | 0 <= j < n :: (builtAt, j) in chunks && (builtAt, j) in others
    requires forall j | 0 <= j < n :: chunks[(builtAt, j)] == others[(builtAt, j)]
    ensures Gathered(chunks, builtAt, n) == Gathered(others, builtAt, n)
  {
    if n > 0 { SameGathered(chunks, others, builtAt, n - 1); }
  }

  /** Such a fetch under way, at this world. */
  ghost predicate Underway(worlds: seq<World>, events: seq<Event>, s: World, t: World, w: nat, m: Manifest,
                           reuse: bool)
  {
    && Runs(worlds, events) && worlds[0] == s && worlds[|events|] == t && events != [] && events[0] == Look(w)
    && (forall e <- events :: Undisturbing(e, w, m.builtAt, reuse))
    && w < |t.workers| && t.workers[w].marker != Some(m.builtAt) && Present(t.chunks, m)
  }

  lemma Onward(worlds: seq<World>, events: seq<Event>, s: World, t: World, w: nat, m: Manifest, reuse: bool, e: Event)
    returns (worlds': seq<World>, events': seq<Event>)
    requires Underway(worlds, events, s, t, w, m, reuse) && Enabled(t, e) && Undisturbing(e, w, m.builtAt, reuse)
    requires Present(Next(t, e).chunks, m) && w < |Next(t, e).workers|
    requires Next(t, e).workers[w].marker != Some(m.builtAt)
    ensures Underway(worlds', events', s, Next(t, e), w, m, reuse)
  {
    worlds', events' := worlds + [Next(t, e)], events + [e];
  }

  /** Left to itself, a fetch of chunks that do not make up the file ends without it. */
  lemma {:induction false} FailsAlone(worlds: seq<World>, events: seq<Event>, s: World, t: World,
                                      w: nat, m: Manifest, reuse: bool, n: nat)
    returns (worlds': seq<World>, events': seq<Event>)
    requires Underway(worlds, events, s, t, w, m, reuse) && n <= m.chunks
    requires t.workers[w].fetch == Downloading(m, n, Gathered(t.chunks, m.builtAt, n))
    requires Gathered(t.chunks, m.builtAt, m.chunks) != m.digest.of
    ensures Fetching(worlds', events', s, w, m, reuse) && !Settled(worlds'[|events'|].workers[w], m)
    decreases m.chunks - n
  {
    if n == m.chunks {
      worlds', events' := Onward(worlds, events, s, t, w, m, reuse, Place(w));
    } else {
      worlds', events' := Onward(worlds, events, s, t, w, m, reuse, Get(w));
      worlds', events' := FailsAlone(worlds', events', s, Next(t, Get(w)), w, m, reuse, n + 1);
    }
  }

  /** The fetch has looked and not yet read a chunk. */
  lemma Looks(s: World, w: nat, m: Manifest, reuse: bool) returns (worlds: seq<World>, events: seq<Event>, t: World)
    requires Inv(s) && s.manifest == Some(m) && Ended(s, w) && s.workers[w].marker != Some(m.builtAt)
    ensures Underway(worlds, events, s, t, w, m, reuse) && t.workers[w].fetch == Downloading(m, 0, [])
    ensures t == s.(workers := t.workers)
  {
    t := Next(s, Look(w));
    worlds, events := [s, t], [Look(w)];
  }

  /** An upload goes on until it has changed a chunk of the manifest. */
  lemma {:induction false} UploadsOver(worlds: seq<World>, events: seq<Event>, s: World, t: World,
                                       w: nat, m: Manifest, reuse: bool, i: nat)
    returns (worlds': seq<World>, events': seq<Event>)
    requires Underway(worlds, events, s, t, w, m, reuse) && t.workers[w].fetch == Downloading(m, 0, [])
    requires Gathered(t.chunks, m.builtAt, m.chunks) == m.digest.of
    requires t.publisher.Uploading? && t.publisher.builtAt == m.builtAt && t.publisher.size > 0
    requires t.publisher.n <= i < |Blocks(t.publisher.file, t.publisher.size)| && i < m.chunks
    requires Blocks(t.publisher.file, t.publisher.size)[i] != t.chunks[(m.builtAt, i)]
    ensures Fetching(worlds', events', s, w, m, reuse) && !Settled(worlds'[|events'|].workers[w], m)
    decreases i - t.publisher.n
  {
    var n, u := t.publisher.n, Next(t, Upload);
    worlds', events' := Onward(worlds, events, s, t, w, m, reuse, Upload);
    if u.chunks[(m.builtAt, n)] != t.chunks[(m.builtAt, n)] {
      OneChunkTells(u.chunks, t.chunks, m.builtAt, m.chunks, n);
      worlds', events' := FailsAlone(worlds', events', s, u, w, m, reuse, 0);
    } else {
      SameGathered(u.chunks, t.chunks, m.builtAt, m.chunks);
      worlds', events' := UploadsOver(worlds', events', s, u, w, m, reuse, i);
    }
  }

  /** A publish of another file begins under the manifest's number. */
  lemma BeginsOver(worlds: seq<World>, events: seq<Event>, s: World, t: World, w: nat, m: Manifest)
    returns (worlds': seq<World>, events': seq<Event>)
    requires Underway(worlds, events, s, t, w, m, true) && t.workers[w].fetch == Downloading(m, 0, [])
    requires Gathered(t.chunks, m.builtAt, m.chunks) == m.digest.of && m.chunks > 0
    ensures Fetching(worlds', events', s, w, m, true) && !Settled(worlds'[|events'|].workers[w], m)
  {
    var other := t.chunks[(m.builtAt, 0)] + [0];
    var u := Next(t, Crash);
    var v := Next(u, Begin(other, m.builtAt, |other|));
    worlds', events' := Onward(worlds, events, s, t, w, m, true, Crash);
    worlds', events' := Onward(worlds', events', s, u, w, m, true, Begin(other, m.builtAt, |other|));
    worlds', events' := UploadsOver(worlds', events', s, v, w, m, true, 0);
  }

  /** Where it is not sure, some fetch ends without the file. */
  lemma UnsureFails(s: World, w: nat, m: Manifest, reuse: bool) returns (worlds: seq<World>, events: seq<Event>)
    requires Inv(s) && s.manifest == Some(m) && Ended(s, w) && !Sure(s, w, m, reuse)
    ensures Fetching(worlds, events, s, w, m, reuse) && !Settled(worlds[|events|].workers[w], m)
  {
    if s.workers[w].marker == Some(m.builtAt) {
      worlds, events := [s, Next(s, Look(w))], [Look(w)];
    } else {
      var t;
      worlds, events, t := Looks(s, w, m, reuse);
      if Gathered(s.chunks, m.builtAt, m.chunks) != m.digest.of {
        worlds, events := FailsAlone(worlds, events, s, t, w, m, reuse, 0);
      } else if !Harmless(s.publisher, s.chunks, m) {
        var p := s.publisher;
        var i :| p.n <= i < |Blocks(p.file, p.size)| && i < m.chunks
                 && Blocks(p.file, p.size)[i] != s.chunks[(m.builtAt, i)];
        worlds, events := UploadsOver(worlds, events, s, t, w, m, reuse, i);
      } else {
        worlds, events := BeginsOver(worlds, events, s, t, w, m);
      }
    }
  }

  /** In any world a run comes to: every fetch during which no publish
      completes ends on the manifest's generation if and only if that was sure
      when it began, whatever else uploads, deletes and dies meanwhile. */
  lemma FetchEnds(workers: nat, worlds: seq<World>, events: seq<Event>, k: nat, w: nat, m: Manifest, reuse: bool)
    requires Runs(worlds, events) && worlds[0] == Start(workers) && k < |worlds|
    requires worlds[k].manifest == Some(m) && Ended(worlds[k], w)
    ensures Present(worlds[k].chunks, m)
    ensures (forall worlds': seq<World>, events' | Fetching(worlds', events', worlds[k], w, m, reuse) ::
               Settled(worlds'[|events'|].workers[w], m))
            <==> Sure(worlds[k], w, m, reuse)
  {
    StartHolds(workers);
    RunKeeps(worlds, events, k);
    if Sure(worlds[k], w, m, reuse) {
      forall worlds': seq<World>, events' | Fetching(worlds', events', worlds[k], w, m, reuse)
        ensures Settled(worlds'[|events'|].workers[w], m)
      {
        SureSettles(worlds', events', worlds[k], w, m, reuse);
      }
    } else {
      var worlds', events' := UnsureFails(worlds[k], w, m, reuse);
    }
  }

  // -- generations that only rise ---------------------------------------------------

  predicate Rising(published: seq<Generation>, newest: int) {
    && (forall g <- published :: Sound(g) && g.manifest.builtAt <= newest)
    && forall i, j | 0 <= i < j < |published| :: published[i].manifest.builtAt < published[j].manifest.builtAt
  }

  /** Every publish begun is of a later generation than all begun before. */
  predicate Fresh(s: World, e: Event) {
    e.Begin? ==> e.builtAt > s.newest
  }

  predicate Last(published: seq<Generation>, manifest: Option<Manifest>) {
    if published == [] then manifest == None else manifest == Some(published[|published| - 1].manifest)
  }

  predicate PublisherFresh(s: World) {
    s.publisher.Uploading? ==>
      && s.publisher.builtAt == s.newest
      && forall g <- s.published :: g.manifest.builtAt < s.newest
  }

  /** A worker's marker names its file's generation or one the manifest has left behind. */
  predicate Behind(w: Worker, s: World) {
    && (w.marker.Some? ==> s.manifest.Some? && w.marker.value <= s.manifest.value.builtAt
                           && (w.marker.value == s.manifest.value.builtAt ==>
                                 w.file == Some(s.manifest.value.digest.of)))
    && (w.fetch.Downloading? || w.fetch.Placed? ==>
          && Known(w.fetch.manifest, s.published)
          && (w.marker.Some? ==> w.marker.value < w.fetch.manifest.builtAt))
    && (w.fetch.Placed? ==> w.file == Some(w.fetch.manifest.digest.of))
  }

  predicate FreshInv(s: World) {
    && PublisherOk(s.publisher, s.chunks, s.manifest) && PublisherFresh(s)
    && Rising(s.published, s.newest) && Last(s.published, s.manifest)
    && (s.manifest.Some? ==> Right(s.chunks, s.manifest.value))
    && forall i | 0 <= i < |s.workers| :: Behind(s.workers[i], s)
  }

  /** A manifest known is the current one or of an earlier generation. */
  lemma KnownBehind(m: Manifest, s: World)
    requires Known(m, s.published) && Rising(s.published, s.newest) && Last(s.published, s.manifest)
    ensures s.manifest.Some? && m.builtAt <= s.manifest.value.builtAt
    ensures m.builtAt == s.manifest.value.builtAt ==> m == s.manifest.value
  {
    var g :| g in s.published && g.manifest == m && Sound(g);
    var i :| 0 <= i < |s.published| && s.published[i] == g;
    var n := |s.published| - 1;
    if i < n { assert s.published[i].manifest.builtAt < s.published[n].manifest.builtAt; }
  }

  lemma FreshFlip(s: World)
    requires FreshInv(s) && Enabled(s, Flip)
    ensures FreshInv(Flipped(s))
  {
    var t := Flipped(s);
    var g := t.published[|s.published|];
    assert Sound(g);
    assert Rising(t.published, t.newest) by {
      forall i | 0 <= i < |s.published| ensures s.published[i].manifest.builtAt < g.manifest.builtAt {
        assert s.published[i] in s.published;
      }
    }
    assert s.manifest.Some? ==> s.manifest.value.builtAt < s.newest by {
      if s.published != [] { assert s.published[|s.published| - 1] in s.published; }
    }
    forall i | 0 <= i < |t.workers| ensures Behind(t.workers[i], t) {
      var w := s.workers[i];
      assert Behind(w, s);
      if w.fetch.Downloading? || w.fetch.Placed? { KnownStill(w.fetch.manifest, s.published, g); }
    }
  }

  lemma BehindStep(s: World, w: Worker)
    requires FreshInv(s) && Behind(w, s)
    ensures w.fetch.Idle? ==> Behind(Looked(w, s.manifest), s)
    ensures w.fetch.Downloading? ==> Behind(Got(w, s.chunks), s) && Behind(PutInPlace(w), s)
    ensures w.fetch.Placed? ==> Behind(Marked(w), s)
    ensures Behind(w.(fetch := Idle, last := Unasked), s)
  {
    if w.fetch.Idle? && s.manifest.Some? {
      var g := s.published[|s.published| - 1];
      assert g in s.published;
    }
    if !w.fetch.Idle? {
      KnownBehind(w.fetch.manifest, s);
      var g :| g in s.published && g.manifest == w.fetch.manifest && Sound(g);
    }
  }

  lemma FreshPublisher(s: World, e: Event)
    requires FreshInv(s) && Enabled(s, e) && Fresh(s, e) && (e.Begin? || e.Upload? || e.Delete? || e.Done? || e.Crash?)
    ensures FreshInv(Next(s, e))
  {
    var t := Next(s, e);
    if s.published != [] { assert s.published[|s.published| - 1] in s.published; }
    assert s.manifest.Some? ==> Right(t.chunks, s.manifest.value);
    forall i | 0 <= i < |t.workers| ensures Behind(t.workers[i], t) { assert Behind(s.workers[i], s); }
  }

  lemma FreshReplaces(s: World, i: nat, w: Worker)
    requires FreshInv(s) && i < |s.workers| && Behind(w, s)
    ensures FreshInv(s.(workers := s.workers[i := w]))
  {
    var t := s.(workers := s.workers[i := w]);
    forall j | 0 <= j < |t.workers| ensures Behind(t.workers[j], t) {
      assert j != i ==> Behind(s.workers[j], s);
    }
  }

  lemma FreshWorker(s: World, e: Event)
    requires FreshInv(s) && Enabled(s, e) && (e.Look? || e.Get? || e.Place? || e.Mark? || e.Die?)
    ensures FreshInv(Next(s, e))
  {
    BehindStep(s, s.workers[e.w]);
    match e
    case Look(w) => FreshReplaces(s, w, Looked(s.workers[w], s.manifest));
    case Get(w) => FreshReplaces(s, w, Got(s.workers[w], s.chunks));
    case Place(w) => FreshReplaces(s, w, PutInPlace(s.workers[w]));
    case Mark(w) => FreshReplaces(s, w, Marked(s.workers[w]));
    case Die(w) => FreshReplaces(s, w, s.workers[w].(fetch := Idle, last := Unasked));
  }

  ghost predicate FreshRun(workers: nat, worlds: seq<World>, events: seq<Event>) {
    && Runs(worlds, events) && worlds[0] == Start(workers)
    && forall i | 0 <= i < |events| :: Fresh(worlds[i], events[i])
  }

  lemma {:induction false} FreshKeeps(workers: nat, worlds: seq<World>, events: seq<Event>, k: nat)
    requires FreshRun(workers, worlds, events) && k < |worlds|
    ensures FreshInv(worlds[k]) && |worlds[k].workers| == workers
  {
    if k > 0 {
      FreshKeeps(workers, worlds, events, k - 1);
      var s, e := worlds[k - 1], events[k - 1];
      assert Fresh(s, e);
      if e.Flip? { FreshFlip(s); }
      else if e.Look? || e.Get? || e.Place? || e.Mark? || e.Die? { FreshWorker(s, e); }
      else { FreshPublisher(s, e); }
    }
  }

  lemma FreshIsSure(s: World, w: nat)
    requires FreshInv(s) && Inv(s) && s.manifest.Some? && w < |s.workers|
    ensures Sure(s, w, s.manifest.value, false)
  {
    var m := s.manifest.value;
    assert s.published[|s.published| - 1] in s.published;
    assert Behind(s.workers[w], s);
    GatheredRight(s.chunks, m, m.chunks);
  }

  /** From a manifest on, no publish begins under its number. */
  lemma BeginsLater(workers: nat, worlds: seq<World>, events: seq<Event>, i: nat, k: nat)
    requires FreshRun(workers, worlds, events) && i <= k < |events| && worlds[i].manifest.Some?
    ensures events[k].Begin? ==> events[k].builtAt > worlds[i].manifest.value.builtAt
  {
    FreshKeeps(workers, worlds, events, i);
    NewerThan(workers, worlds, events, i, k);
    assert Fresh(worlds[k], events[k]);
    var s := worlds[i];
    assert s.published[|s.published| - 1] in s.published;
  }

  /** When generations only rise, a worker's fetch of any run ends on the
      manifest's generation, unless a publish completed or the worker died meanwhile. */
  lemma FreshFetchEnds(workers: nat, worlds: seq<World>, events: seq<Event>, w: nat, i: nat, j: nat)
    requires FreshRun(workers, worlds, events) && w < workers && i < j <= |events| && worlds[i].manifest.Some?
    requires events[i] == Look(w) && forall k | i <= k < j :: !events[k].Flip? && events[k] != Die(w)
    requires Ended(worlds[j], w)
    ensures worlds[j].manifest == worlds[i].manifest && Settled(worlds[j].workers[w], worlds[i].manifest.value)
  {
    FreshKeeps(workers, worlds, events, i);
    StartHolds(workers);
    RunKeeps(worlds, events, i);
    var s, m := worlds[i], worlds[i].manifest.value;
    FreshIsSure(s, w);
    var part, steps := worlds[i..j + 1], events[i..j];
    forall e <- steps ensures Undisturbing(e, w, m.builtAt, false) {
      var k :| 0 <= k < |steps| && steps[k] == e;
      assert events[i + k] == e;
      BeginsLater(workers, worlds, events, i, i + k);
    }
    assert part[|steps|] == worlds[j];
    SureSettles(part, steps, s, w, m, false);
  }

  lemma {:induction false} NewerThan(workers: nat, worlds: seq<World>, events: seq<Event>, i: nat, k: nat)
    requires FreshRun(workers, worlds, events) && i <= k < |worlds|
    ensures worlds[i].newest <= worlds[k].newest
  {
    if i < k {
      NewerThan(workers, worlds, events, i, k - 1);
      assert worlds[k] == Next(worlds[k - 1], events[k - 1]);
    }
  }

  // -- where a generation does not rise ------------------------------------------------

  /** A run and where it ends. */
  ghost predicate Reaches(worlds: seq<World>, events: seq<Event>, s: World) {
    Runs(worlds, events) && worlds[0] == Start(1) && worlds[|events|] == s
  }

  lemma OneMore(worlds: seq<World>, events: seq<Event>, s: World, e: Event)
    returns (worlds': seq<World>, events': seq<Event>)
    requires Reaches(worlds, events, s) && Enabled(s, e)
    ensures Reaches(worlds', events', Next(s, e)) && events' == events + [e]
  {
    worlds', events' := worlds + [Next(s, e)], events + [e];
  }

  /** A file published whole, by a publisher that does nothing else. */
  lemma Publishes(worlds: seq<World>, events: seq<Event>, s: World, file: Content, builtAt: nat)
    returns (worlds': seq<World>, events': seq<Event>, t: World)
    requires Reaches(worlds, events, s) && s.publisher.Quiet? && |file| <= 1
    requires s.manifest.Some? ==> s.manifest.value.builtAt == builtAt || s.manifest.value.chunks == 0
    ensures Reaches(worlds', events', t)
    ensures t.manifest == Some(Described(file, builtAt, 1)) && t.workers == s.workers && t.publisher.Quiet?
    ensures t.published == s.published + [Generation(t.manifest.value, file)]
    ensures file != [] ==> (builtAt, 0) in t.chunks && t.chunks[(builtAt, 0)] == file
  {
    t := Next(s, Begin(file, builtAt, 1));
    worlds', events' := OneMore(worlds, events, s, Begin(file, builtAt, 1));
    if file != [] {
      worlds', events' := OneMore(worlds', events', t, Upload);
      t := Next(t, Upload);
    }
    worlds', events' := OneMore(worlds', events', t, Flip);
    t := Next(t, Flip);
    if t.publisher.Deleting? {
      worlds', events' := OneMore(worlds', events', t, Done);
      t := Next(t, Done);
    }
  }

  /** The only worker fetches a published file and dies before it marks it, or does not. */
  lemma Fetches(worlds: seq<World>, events: seq<Event>, s: World, file: Content, builtAt: nat, dies: bool)
    returns (worlds': seq<World>, events': seq<Event>, t: World)
    requires Reaches(worlds, events, s) && |s.workers| == 1 && s.workers[0].fetch.Idle? && |file| <= 1
    requires s.manifest == Some(Described(file, builtAt, 1)) && s.workers[0].marker != Some(builtAt)
    requires file != [] ==> (builtAt, 0) in s.chunks && s.chunks[(builtAt, 0)] == file
    ensures Reaches(worlds', events', t) && t.manifest == s.manifest && t.publisher == s.publisher && |t.workers| == 1
    ensures t.workers[0].fetch.Idle? && t.workers[0].file == Some(file)
    ensures t.workers[0].marker == if dies then s.workers[0].marker else Some(builtAt)
  {
    t := Next(s, Look(0));
    worlds', events' := OneMore(worlds, events, s, Look(0));
    if file != [] {
      worlds', events' := OneMore(worlds', events', t, Get(0));
      t := Next(t, Get(0));
      assert t.workers[0].fetch.got == [] + file == file;
    }
    worlds', events' := OneMore(worlds', events', t, Place(0));
    t := Next(t, Place(0));
    var e := if dies then Die(0) else Mark(0);
    worlds', events' := OneMore(worlds', events', t, e);
    t := Next(t, e);
  }

  /** The run ends with the worker told it is up to date, the file it holds not being the one published. */
  ghost predicate Misleads(worlds: seq<World>, events: seq<Event>, published: Content, held: Content) {
    && Runs(worlds, events) && worlds[0] == Start(1) && published != held
    && var s := worlds[|events|];
       && s.manifest.Some? && s.manifest.value.digest.of == published
       && |s.workers| == 1 && s.workers[0].last == UpToDate && s.workers[0].file == Some(held)
  }

  /** A generation used again for another file: the worker keeps the first one. */
  lemma ReusedMisleads() returns (worlds: seq<World>, events: seq<Event>)
    ensures Misleads(worlds, events, [7], [])
  {
    var s := Start(1);
    worlds, events, s := Publishes([s], [], s, [], 5);
    worlds, events, s := Fetches(worlds, events, s, [], 5, false);
    worlds, events, s := Publishes(worlds, events, s, [7], 5);
    worlds, events := OneMore(worlds, events, s, Look(0));
  }

  /** An older generation published again: a worker that died between placing
      the newer file and marking it keeps the newer one. */
  lemma OlderAgainMisleads() returns (worlds: seq<World>, events: seq<Event>)
    ensures Misleads(worlds, events, [], [7])
  {
    var s := Start(1);
    worlds, events, s := Publishes([s], [], s, [], 1);
    worlds, events, s := Fetches(worlds, events, s, [], 1, false);
    worlds, events, s := Publishes(worlds, events, s, [7], 2);
    worlds, events, s := Fetches(worlds, events, s, [7], 2, true);
    var t := Next(s, Begin([], 1, 1));
    worlds, events := OneMore(worlds, events, s, Begin([], 1, 1));
    worlds, events := OneMore(worlds, events, t, Flip);
    t := Next(t, Flip);
    worlds, events := OneMore(worlds, events, t, Look(0));
  }

  /** A publish under the manifest's number that died half way: no marker
      names the generation, no publish completed or is under way, and yet the
      fetch ends without the file. */
  lemma AbandonedSpoils() returns (worlds: seq<World>, events: seq<Event>, s: World)
    ensures Reaches(worlds, events, s) && s.publisher.Quiet? && s.manifest == Some(Described([7], 5, 1))
    ensures s.published == [Generation(Described([7], 5, 1), [7])]
    ensures s.workers == [Worker(None, None, Idle, WrongDigest)]
  {
    s := Start(1);
    assert s.workers == [Worker(None, None, Idle, Unasked)];
    worlds, events, s := Publishes([s], [], s, [7], 5);
    worlds, events, s := Abandons(worlds, events, s, [8], 5);
    worlds, events := OneMore(worlds, events, s, Look(0));
    s := Next(s, Look(0));
    worlds, events := OneMore(worlds, events, s, Get(0));
    s := Next(s, Get(0));
    assert [] + [8] == [8] && s.workers[0].fetch.got == [8];
    worlds, events := OneMore(worlds, events, s, Place(0));
    s := Next(s, Place(0));
  }

  /** A publisher that dies when it has uploaded a chunk. */
  lemma Abandons(worlds: seq<World>, events: seq<Event>, s: World, file: Content, builtAt: nat)
    returns (worlds': seq<World>, events': seq<Event>, t: World)
    requires Reaches(worlds, events, s) && s.publisher.Quiet? && |file| == 1
    ensures Reaches(worlds', events', t) && t.manifest == s.manifest && t.workers == s.workers && t.publisher.Quiet?
    ensures t.published == s.published && t.chunks == s.chunks[(builtAt, 0) := file]
  {
    t := Next(s, Begin(file, builtAt, 1));
    worlds', events' := OneMore(worlds, events, s, Begin(file, builtAt, 1));
    worlds', events' := OneMore(worlds', events', t, Upload);
    t := Next(t, Upload);
    worlds', events' := OneMore(worlds', events', t, Crash);
    t := Next(t, Crash);
  }

  // -- the code ---------------------------------------------------------------------------

  /** A command that changes what Valkey holds of the index. */
  datatype Command =
    | SetChunk(builtAt: nat, n: nat, block: Content)
    | SetManifest(m: Manifest)
    | DeleteChunk(builtAt: nat, n: nat)

  datatype Held = Held(chunks: Chunks, manifest: Option<Manifest>) {

    function Does(c: Command): Held {
      match c
      case SetChunk(builtAt, n, block) => this.(chunks := chunks[(builtAt, n) := block])
      case SetManifest(m) => this.(manifest := Some(m))
      case DeleteChunk(builtAt, n) => this.(chunks := chunks - {(builtAt, n)})
    }

    function Replay(commands: seq<Command>): Held {
      if commands == [] then this else Replay(commands[..|commands| - 1]).Does(commands[|commands| - 1])
    }
  }

  const EMPTY := Held(map[], None)

  lemma ReplayNext(h: Held, commands: seq<Command>, c: Command)
    ensures h.Replay(commands + [c]) == h.Replay(commands).Does(c)
  {
    assert (commands + [c])[..|commands|] == commands;
  }

  lemma {:induction false} ReplayMore(h: Held, first: seq<Command>, more: seq<Command>)
    ensures h.Replay(first + more) == h.Replay(first).Replay(more)
  {
    if more == [] {
      assert first + more == first;
    } else {
      var n := |more| - 1;
      ReplayMore(h, first, more[..n]);
      assert (first + more)[..|first + more| - 1] == first + more[..n];
    }
  }

  /** The first of the blocks, set one after another. */
  function Uploads(blocks: seq<Content>, builtAt: nat, n: nat): (r: seq<Command>)
    requires n <= |blocks|
    ensures |r| == n
  {
    seq(n, i requires 0 <= i < n => SetChunk(builtAt, i, blocks[i]))
  }

  function Removals(builtAt: nat, n: nat): (r: seq<Command>)
    ensures |r| == n
  {
    seq(n, i requires 0 <= i < n => DeleteChunk(builtAt, i))
  }

  /** What a publish is to send: every chunk, then the manifest, and only then the
      generation before away, unless it is the same one. */
  function Publishing(before: Option<Manifest>, file: Content, builtAt: nat, size: nat): seq<Command>
    requires size > 0
  {
    var blocks := Blocks(file, size);
    Uploads(blocks, builtAt, |blocks|) + [SetManifest(Described(file, builtAt, size))]
    + if before.Some? && before.value.builtAt != builtAt then Removals(before.value.builtAt, before.value.chunks)
      else []
  }

  /** Valkey, as the commands it has carried out, in order. */
  class Valkey {
    var done: seq<Command>

    function Now(): Held
      reads this
    {
      EMPTY.Replay(done)
    }

    constructor ()
      ensures done == []
    {
      done := [];
    }

    method Do(c: Command)
      modifies this
      ensures done == old(done) + [c] && Now() == old(Now()).Does(c)
    {
      ReplayNext(EMPTY, done, c);
      done := done + [c];
    }

    /** Uploads a file, flips the manifest, then deletes the generation it replaced. */
    method Publish(file: Content, builtAt: nat, size: nat) returns (m: Manifest)
      requires size > 0
      modifies this
      ensures m == Described(file, builtAt, size)
      ensures done == old(done) + Publishing(old(Now()).manifest, file, builtAt, size)
      ensures Now().manifest == Some(m) && Right(Now().chunks, m)
      ensures Swapped(old(Now()), Now(), builtAt)
    {
      ghost var was := done;
      var blocks := Blocks(file, size);
      Upload(blocks, builtAt);
      m := Manifest(builtAt, |file|, Digest(file), |blocks|, size);
      Unflipped(was, blocks, builtAt);
      var previous := Now().manifest;
      Do(SetManifest(m));
      if previous.Some? && previous.value.builtAt != builtAt {
        Remove(previous.value);
      }
      Sent(was, done, file, builtAt, size);
    }

    method Upload(blocks: seq<Content>, builtAt: nat)
      modifies this
      ensures done == old(done) + Uploads(blocks, builtAt, |blocks|)
    {
      for n := 0 to |blocks|
        invariant done == old(done) + Uploads(blocks, builtAt, n)
      {
        Do(SetChunk(builtAt, n, blocks[n]));
      }
    }

    method Remove(previous: Manifest)
      modifies this
      ensures done == old(done) + Removals(previous.builtAt, previous.chunks)
    {
      for i := 0 to previous.chunks
        invariant done == old(done) + Removals(previous.builtAt, i)
      {
        Do(DeleteChunk(previous.builtAt, i));
      }
    }
  }

  lemma Unflipped(was: seq<Command>, blocks: seq<Content>, builtAt: nat)
    ensures EMPTY.Replay(was + Uploads(blocks, builtAt, |blocks|)).manifest == EMPTY.Replay(was).manifest
  {
    ReplayMore(EMPTY, was, Uploads(blocks, builtAt, |blocks|));
    Uploaded(EMPTY.Replay(was), blocks, builtAt, |blocks|);
  }

  lemma Sent(was: seq<Command>, done: seq<Command>, file: Content, builtAt: nat, size: nat)
    requires size > 0 && var h := EMPTY.Replay(was); done == was + Publishing(h.manifest, file, builtAt, size)
    ensures var h, now := EMPTY.Replay(was), EMPTY.Replay(done);
            && now.manifest == Some(Described(file, builtAt, size)) && Right(now.chunks, now.manifest.value)
            && Swapped(h, now, builtAt)
  {
    var h := EMPTY.Replay(was);
    ReplayMore(EMPTY, was, Publishing(h.manifest, file, builtAt, size));
    Published(h, file, builtAt, size);
  }

  /** Nothing of another generation was changed, and the one the manifest named before is gone. */
  predicate Swapped(was: Held, now: Held, builtAt: nat) {
    && (forall key <- now.chunks :: key.0 == builtAt || (key in was.chunks && now.chunks[key] == was.chunks[key]))
    && (forall key <- was.chunks :: key !in now.chunks ==>
          was.manifest.Some? && key.0 == was.manifest.value.builtAt != builtAt && key.1 < was.manifest.value.chunks)
    && (was.manifest.Some? && was.manifest.value.builtAt != builtAt ==>
          forall i | 0 <= i < was.manifest.value.chunks :: (was.manifest.value.builtAt, i) !in now.chunks)
  }

  lemma {:induction false} Uploaded(h: Held, blocks: seq<Content>, builtAt: nat, n: nat)
    requires n <= |blocks|
    ensures var now := h.Replay(Uploads(blocks, builtAt, n));
            && now.manifest == h.manifest && h.chunks.Keys <= now.chunks.Keys
            && (forall i | 0 <= i < n :: (builtAt, i) in now.chunks && now.chunks[(builtAt, i)] == blocks[i])
            && forall key <- now.chunks :: key.0 == builtAt || (key in h.chunks && now.chunks[key] == h.chunks[key])
  {
    if n > 0 {
      Uploaded(h, blocks, builtAt, n - 1);
      assert Uploads(blocks, builtAt, n)[..n - 1] == Uploads(blocks, builtAt, n - 1);
    }
  }

  lemma {:induction false} Removed(h: Held, builtAt: nat, n: nat)
    ensures var now := h.Replay(Removals(builtAt, n));
            && now.manifest == h.manifest
            && now.chunks == map key | key in h.chunks && !(key.0 == builtAt && key.1 < n) :: h.chunks[key]
  {
    if n > 0 {
      Removed(h, builtAt, n - 1);
      assert Removals(builtAt, n)[..n - 1] == Removals(builtAt, n - 1);
    }
  }

  /** What the commands of a publish come to. */
  lemma Published(h: Held, file: Content, builtAt: nat, size: nat)
    requires size > 0
    ensures var now := h.Replay(Publishing(h.manifest, file, builtAt, size));
            && now.manifest == Some(Described(file, builtAt, size)) && Right(now.chunks, now.manifest.value)
            && Swapped(h, now, builtAt)
  {
    var blocks := Blocks(file, size);
    var m := Described(file, builtAt, size);
    var sent := Uploads(blocks, builtAt, |blocks|);
    Uploaded(h, blocks, builtAt, |blocks|);
    ReplayNext(h, sent, SetManifest(m));
    if h.manifest.Some? && h.manifest.value.builtAt != builtAt {
      ReplayMore(h, sent + [SetManifest(m)], Removals(h.manifest.value.builtAt, h.manifest.value.chunks));
      Removed(h.Replay(sent + [SetManifest(m)]), h.manifest.value.builtAt, h.manifest.value.chunks);
    } else {
      assert sent + [SetManifest(m)] + [] == sent + [SetManifest(m)];
    }
  }

  // -- the code against the machine --------------------------------------------------------

  /** Where the machine's publisher is once it has begun and done this many of a publish's commands. */
  function Stage(before: Option<Manifest>, file: Content, builtAt: nat, size: nat, k: nat): Publisher
    requires size > 0
  {
    var n := |Blocks(file, size)|;
    if k <= n then Uploading(file, builtAt, size, k)
    else if before.Some? && before.value.builtAt != builtAt then Deleting(before.value, k - n - 1)
    else Quiet
  }

  /** The machine's world by then. */
  function WorldAt(s: World, file: Content, builtAt: nat, size: nat, k: nat): World
    requires size > 0 && k <= |Publishing(s.manifest, file, builtAt, size)|
  {
    var held := Held(s.chunks, s.manifest).Replay(Publishing(s.manifest, file, builtAt, size)[..k]);
    s.(chunks := held.chunks, manifest := held.manifest, publisher := Stage(s.manifest, file, builtAt, size, k),
       published := if k <= |Blocks(file, size)| then s.published
                    else s.published + [Generation(Described(file, builtAt, size), file)],
       newest := Max(s.newest, builtAt))
  }

  /** The step of the machine that the command is. */
  function StepOf(c: Command): Event {
    match c
    case SetChunk(_, _, _) => Event.Upload
    case SetManifest(_) => Flip
    case DeleteChunk(_, _) => Delete
  }

  lemma {:induction false} ManifestUntil(h: Held, blocks: seq<Content>, builtAt: nat, rest: seq<Command>, k: nat)
    requires k <= |blocks|
    ensures h.Replay((Uploads(blocks, builtAt, |blocks|) + rest)[..k]).manifest == h.manifest
  {
    assert (Uploads(blocks, builtAt, |blocks|) + rest)[..k] == Uploads(blocks, builtAt, k);
    Uploaded(h, blocks, builtAt, k);
  }

  /** Each command of a publish is one step of the machine, which makes of the world what it makes of Valkey. */
  lemma PublishSteps(s: World, file: Content, builtAt: nat, size: nat, k: nat)
    requires size > 0 && s.publisher.Quiet? && k < |Publishing(s.manifest, file, builtAt, size)|
    ensures Enabled(s, Begin(file, builtAt, size))
    ensures Next(s, Begin(file, builtAt, size)) == WorldAt(s, file, builtAt, size, 0)
    ensures var e := StepOf(Publishing(s.manifest, file, builtAt, size)[k]);
            && Enabled(WorldAt(s, file, builtAt, size, k), e)
            && Next(WorldAt(s, file, builtAt, size, k), e) == WorldAt(s, file, builtAt, size, k + 1)
  {
    var blocks, h, all := Blocks(file, size), Held(s.chunks, s.manifest), Publishing(s.manifest, file, builtAt, size);
    assert all[..k + 1] == all[..k] + [all[k]];
    ReplayNext(h, all[..k], all[k]);
    assert all[..0] == [];
    if k <= |blocks| {
      var rest := all[|blocks|..];
      assert all == Uploads(blocks, builtAt, |blocks|) + rest;
      ManifestUntil(h, blocks, builtAt, rest, k);
    }
  }

  /** So after each command of a publish, whoever looks finds every chunk the manifest names. */
  lemma {:induction false} PublishKeeps(s: World, file: Content, builtAt: nat, size: nat, k: nat)
    requires Inv(s) && size > 0 && s.publisher.Quiet? && k <= |Publishing(s.manifest, file, builtAt, size)|
    ensures Inv(WorldAt(s, file, builtAt, size, k))
    ensures var held := Held(s.chunks, s.manifest).Replay(Publishing(s.manifest, file, builtAt, size)[..k]);
            held.manifest.Some? ==> Present(held.chunks, held.manifest.value)
  {
    if k == 0 {
      PublishSteps(s, file, builtAt, size, 0);
      StepKeeps(s, Begin(file, builtAt, size));
    } else {
      PublishKeeps(s, file, builtAt, size, k - 1);
      PublishSteps(s, file, builtAt, size, k - 1);
      StepKeeps(WorldAt(s, file, builtAt, size, k - 1), StepOf(Publishing(s.manifest, file, builtAt, size)[k - 1]));
    }
  }

  class Copy {
    var file: Option<Content>
    var marker: Option<nat>

    /** Downloads the published file unless the marker names its generation;
        whatever is wrong leaves this copy alone. */
    method FetchIfStale(redis: Valkey) returns (r: Outcome)
      modifies this
      ensures redis.Now().manifest.None? ==> r == NothingPublished
      ensures redis.Now().manifest.Some? && old(marker) == Some(redis.Now().manifest.value.builtAt) ==> r == UpToDate
      ensures r == Fetched ==>
        var m := redis.Now().manifest.value;
        && redis.Now().manifest.Some? && old(marker) != Some(m.builtAt)
        && file == Some(m.digest.of) && marker == Some(m.builtAt) && |m.digest.of| == m.bytes
      ensures r != Fetched ==> file == old(file) && marker == old(marker)
      ensures redis.Now().manifest.Some? && Right(redis.Now().chunks, redis.Now().manifest.value) ==>
        r == if old(marker) == Some(redis.Now().manifest.value.builtAt) then UpToDate else Fetched
      ensures r.Missing? ==>
        redis.Now().manifest.Some? && (redis.Now().manifest.value.builtAt, r.n) !in redis.Now().chunks
      ensures r == WrongSize || r == WrongDigest ==>
        && redis.Now().manifest.Some?
        && var m := redis.Now().manifest.value;
           && (forall i | 0 <= i < m.chunks :: (m.builtAt, i) in redis.Now().chunks)
           && var got := Gathered(redis.Now().chunks, m.builtAt, m.chunks);
              if r == WrongSize then |got| != m.bytes else |got| == m.bytes && Digest(got) != m.digest
    {
      if redis.Now().manifest.None? { return NothingPublished; }
      var m := redis.Now().manifest.value;
      if marker == Some(m.builtAt) { return UpToDate; }
      var got := [];
      for i := 0 to m.chunks
        invariant forall j | 0 <= j < i :: (m.builtAt, j) in redis.Now().chunks
        invariant got == Gathered(redis.Now().chunks, m.builtAt, i)
      {
        if (m.builtAt, i) !in redis.Now().chunks { return Missing(i); }
        got := got + redis.Now().chunks[(m.builtAt, i)];
      }
      assert Right(redis.Now().chunks, m) ==> got == m.digest.of by {
        if Right(redis.Now().chunks, m) {
          GatheredRight(redis.Now().chunks, m, m.chunks);
        }
      }
      if |got| != m.bytes { return WrongSize; }
      if Digest(got) != m.digest { return WrongDigest; }
      file := Some(got);
      marker := Some(m.builtAt);
      r := Fetched;
    }
  }
}
