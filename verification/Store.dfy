/**
 * The cache: one store of results and artifacts, what is known of its entries, and what a lookup
 * in it may therefore find.
 */
module Store {
  import opened Options
  import opened Text
  import opened Platform
  import opened Keys

  /** One store holds results and artifacts. */
  datatype Entry = ResultEntry(v: Visible) | ArtifactEntry(code: string, binary: string)

  function ResultHit(redis: map<string, Entry>, key: string): Option<Visible> {
    if key in redis && redis[key].ResultEntry? then Some(redis[key].v) else None
  }

  function ArtifactHit(redis: map<string, Entry>, key: string): Option<string> {
    if key in redis && redis[key].ArtifactEntry? then Some(redis[key].binary) else None
  }

  /** Only the entry under one key may differ. */
  predicate SameOff(redis: map<string, Entry>, redis': map<string, Entry>, key: string) {
    && (forall k :: k in redis && k != key ==> k in redis' && redis'[k] == redis[k])
    && (forall k :: k in redis' && k != key ==> k in redis)
  }

  lemma HitStays(redis: map<string, Entry>, redis': map<string, Entry>, key: string, other: string)
    requires SameOff(redis, redis', key) && other != key
    ensures ResultHit(redis', other) == ResultHit(redis, other)
  {
  }

  /** The program is unharmed: an artifact keeps all of it, and no batch ran it on a container not loaded for it. */
  predicate Clean(w: World, stale: set<Prog>, p: Prog) {
    Whole(w, p) && p !in stale
  }

  /** The text is the main file of the program's build, if that has one. */
  predicate BinaryOf(w: World, p: Prog, b: string) {
    Runs(w, p) && Primary(p.lang) in Program(w, p) ==> Program(w, p)[Primary(p.lang)] == b
  }

  /** An artifact overwrites the main file; the Java handler runs the script for the source as well. */
  function Unpacked(w: World, p: Prog, b: string, files: Files): Files {
    if IsJava(p.lang) then Scripted(w, p, files[Primary(p.lang) := b])
    else files[Primary(p.lang) := b]
  }

  predicate OfPair(p: Prog) {
    KeyOf(p) in PoolKeys() && Trim(p.lang) == p.lang && Trim(p.ver) == p.ver && Trim(p.code) == p.code
  }

  /** What a run of the program may show, whatever files it finds in its container. */
  ghost predicate Shows(w: World, o: Origin, v: Visible) {
    exists files: Files, runnable: bool :: Output(w, o.prog, runnable, o.limit, o.stdin, files) == Some(v)
  }

  /** A stored result is a run without stderr of what its key names, and, unless the program is stale, the fresh one. */
  ghost predicate ResultFrom(w: World, stale: set<Prog>, key: string, v: Visible, o: Origin) {
    && KeyOfOrigin(w, o) == key && OfPair(o.prog) && v.stderr.None? && Shows(w, o, v)
    && (Clean(w, stale, o.prog) ==> v == Fresh(w, o.prog, o.limit, o.stdin))
  }

  /** A stored artifact is the main file of the build of what its key names. */
  predicate ArtifactFrom(w: World, key: string, code: string, b: string, q: Prog) {
    && ArtifactKey(w, q) == key && OfPair(q) && q.code == code && Compiled(q.lang)
    && (Certain(q) ==> Runs(w, q) && BinaryOf(w, q, b))
  }

  ghost predicate EntryOk(w: World, stale: set<Prog>, key: string, e: Entry) {
    match e
    case ResultEntry(v) => exists o :: ResultFrom(w, stale, key, v, o)
    case ArtifactEntry(code, b) => exists q :: ArtifactFrom(w, key, code, b, q)
  }

  ghost predicate StoreGood(w: World, stale: set<Prog>, redis: map<string, Entry>) {
    forall key :: key in redis ==> EntryOk(w, stale, key, redis[key])
  }

  /** What a run on a container shows; none if the engine refuses an empty command. */
  function Output(w: World, p: Prog, runnable: bool, limit: nat, stdin: Option<string>, files: Files): Option<Visible> {
    if runnable then Some(Show(w.exec(p.lang, p.ver, files, stdin), limit))
    else if stdin.None? then None
    else Some(Show(w.blank(stdin), limit))
  }

  /** What is known of a build is what the compiler says, if that can be told without the container. */
  predicate KnowsBuild(w: World, p: Prog, runnable: bool, stderr: string) {
    && (runnable ==> stderr == "") && (!runnable ==> Compiled(p.lang))
    && (Certain(p) ==> if runnable then Runs(w, p) else FreshBuild(w, p) == Rejected(stderr))
  }

  /** What the program shows depends on the files it finds. */
  ghost predicate Sensitive(w: World, p: Prog, limit: nat, stdin: Option<string>) {
    exists files: Files :: Show(w.exec(p.lang, p.ver, files, stdin), limit) != Fresh(w, p, limit, stdin)
  }

  // ---------------------------------------------------------------- what lookups and runs give

  /** Unpacking the one file of a build makes any container ready for the program. */
  lemma UnpackLoads(w: World, p: Prog, b: string, files: Files)
    requires Compiled(p.lang) && Runs(w, p) && BinaryOf(w, p, b)
    requires Program(w, p).Keys == {Primary(p.lang)} && (IsJava(p.lang) ==> OneDocument(p.code))
    ensures Loaded(w, p, Unpacked(w, p, b, files)) && Loaded(w, p, files[Primary(p.lang) := b])
  {
    if IsJava(p.lang) {
      OneDocumentWritten(p.code);
    }
  }

  /** A program that was loaded runs as it would on a fresh container. */
  lemma LoadedRuns(w: World, p: Prog, files: Files, stdin: Option<string>)
    requires Local(w) && Whole(w, p) && Loaded(w, p, files)
    ensures w.exec(p.lang, p.ver, files, stdin) == w.exec(p.lang, p.ver, Program(w, p), stdin)
  {
  }

  /** A run on a container that has the program gives what is wanted. */
  lemma OutputIsWanted(w: World, p: Prog, runnable: bool, stderr: string, limit: nat, stdin: Option<string>,
          files: Files)
    requires Local(w) && Complains(w) && KnowsBuild(w, p, runnable, stderr) && Whole(w, p)
    requires runnable ==> Loaded(w, p, files)
    requires Output(w, p, runnable, limit, stdin, files).Some?
    ensures stderr == "" ==> Output(w, p, runnable, limit, stdin, files) == Some(Fresh(w, p, limit, stdin))
    ensures stderr != "" ==> Output(w, p, runnable, limit, stdin, files).value.stderr.Some?
  {
    if runnable {
      LoadedRuns(w, p, files, stdin);
    }
  }

  /** A result without stderr kept its limit, so it is the result for any longer limit too. */
  lemma FreshMonotone(w: World, p: Prog, limit: nat, other: nat, stdin: Option<string>)
    requires Complains(w) && Fresh(w, p, limit, stdin).stderr.None? && limit <= other
    ensures Fresh(w, p, other, stdin) == Fresh(w, p, limit, stdin)
  {
    assert w.blank(stdin).stderr != "";
  }

  /** What a lookup finds under the key of a request is that request's own result. */
  lemma HitIsWanted(w: World, stale: set<Prog>, redis: map<string, Entry>, p: Prog, limit: nat, stdin: Option<string>)
    requires Digests(w) && StoreGood(w, stale, redis)
    requires ResultHit(redis, ResultKey(w, p, limit, stdin)).Some?
    ensures ResultFrom(w, stale, ResultKey(w, p, limit, stdin),
                       ResultHit(redis, ResultKey(w, p, limit, stdin)).value, Origin(p, limit, stdin))
  {
    var key := ResultKey(w, p, limit, stdin);
    var v := ResultHit(redis, key).value;
    assert EntryOk(w, stale, key, redis[key]);
    var o :| ResultFrom(w, stale, key, v, o);
    PoolKeyUnique(o.prog.lang, o.prog.ver);
    ResultKeyUnique(w, o, p, limit, stdin);
  }

  lemma ArtifactHitIsOurs(w: World, stale: set<Prog>, redis: map<string, Entry>, p: Prog)
    requires Digests(w) && StoreGood(w, stale, redis)
    requires ArtifactHit(redis, ArtifactKey(w, p)).Some?
    ensures Compiled(p.lang)
    ensures Certain(p) ==> Runs(w, p) && BinaryOf(w, p, ArtifactHit(redis, ArtifactKey(w, p)).value)
    ensures redis[ArtifactKey(w, p)].code == p.code
  {
    var key := ArtifactKey(w, p);
    assert EntryOk(w, stale, key, redis[key]);
    var q :| ArtifactFrom(w, key, redis[key].code, redis[key].binary, q);
    PoolKeyUnique(q.lang, q.ver);
    ArtifactKeyUnique(w, q, p);
  }

  // ---------------------------------------------------------------- what may be stored

  lemma EntryStays(w: World, stale: set<Prog>, stale': set<Prog>, key: string, e: Entry)
    requires EntryOk(w, stale, key, e) && stale <= stale'
    ensures EntryOk(w, stale', key, e)
  {
    match e
    case ResultEntry(v) =>
      var o :| ResultFrom(w, stale, key, v, o);
      assert ResultFrom(w, stale', key, v, o);
    case ArtifactEntry(code, b) =>
  }

  lemma StoreGrows(w: World, stale: set<Prog>, stale': set<Prog>, redis: map<string, Entry>)
    requires StoreGood(w, stale, redis) && stale <= stale'
    ensures StoreGood(w, stale', redis)
  {
    forall key | key in redis ensures EntryOk(w, stale', key, redis[key]) {
      EntryStays(w, stale, stale', key, redis[key]);
    }
  }

  lemma StoreAdds(w: World, stale: set<Prog>, redis: map<string, Entry>, key: string, e: Entry)
    requires StoreGood(w, stale, redis) && EntryOk(w, stale, key, e)
    ensures StoreGood(w, stale, redis[key := e])
  {
    var redis' := redis[key := e];
    forall k | k in redis' ensures EntryOk(w, stale, k, redis'[k]) {
      if k != key {
        assert EntryOk(w, stale, k, redis[k]);
      }
    }
  }

  /** Only a run that kept its limit and printed nothing on stderr may be stored. */
  lemma ResultGood(w: World, stale: set<Prog>, redis: map<string, Entry>, p: Prog, limit: nat, stdin: Option<string>,
          v: Visible)
    requires StoreGood(w, stale, redis) && OfPair(p) && v.stderr.None? && Shows(w, Origin(p, limit, stdin), v)
    requires Clean(w, stale, p) ==> v == Fresh(w, p, limit, stdin)
    ensures StoreGood(w, stale, redis[ResultKey(w, p, limit, stdin) := ResultEntry(v)])
  {
    var key := ResultKey(w, p, limit, stdin);
    assert ResultFrom(w, stale, key, v, Origin(p, limit, stdin));
    StoreAdds(w, stale, redis, key, ResultEntry(v));
  }

  /** Only the main file of a build may be stored. */
  lemma ArtifactGood(w: World, stale: set<Prog>, redis: map<string, Entry>, p: Prog, b: string)
    requires StoreGood(w, stale, redis) && OfPair(p) && Compiled(p.lang)
    requires Certain(p) ==> Runs(w, p) && BinaryOf(w, p, b)
    ensures StoreGood(w, stale, redis[ArtifactKey(w, p) := ArtifactEntry(p.code, b)])
  {
    var key := ArtifactKey(w, p);
    assert ArtifactFrom(w, key, p.code, b, p);
    StoreAdds(w, stale, redis, key, ArtifactEntry(p.code, b));
  }
}
