/**
 * The compilers and the artifact handlers: whichever way a program gets into a container, the same
 * program is ready there afterwards.
 */
module Compilers {
  import opened Options
  import opened Platform
  import opened Keys
  import opened Store
  import opened Services

  /** A run command (if it is not empty) and what the compiler reported. */
  datatype Prepared = Prepared(runnable: bool, stderr: string)

  /** The files of a container after the source was written and compiled to `out` there. */
  function BuiltOver(w: World, p: Prog, out: Files, files: Files): Files {
    Scripted(w, p, files) + out
  }

  /**
   * Unpacking the artifact makes every container ready for the program, whatever is left in it from
   * others and whatever a shell makes of commands, if and only if the build is that one file and, for
   * Java, no line of the code ends the here-document.
   */
  lemma HitLoadsExactly(w: World, p: Prog)
    requires Compiled(p.lang) && Runs(w, p) && Primary(p.lang) in Program(w, p)
    requires SourceFile(p.lang) !in Program(w, p)
    ensures (forall shell, files :: HitLoads(w, p, shell, files)) <==>
      Program(w, p).Keys == {Primary(p.lang)} && (IsJava(p.lang) ==> OneDocument(p.code))
  {
    hide FreshBuild;
    var out, none: Files := Program(w, p), map[];
    if out.Keys == {Primary(p.lang)} && (IsJava(p.lang) ==> OneDocument(p.code)) {
      forall shell, files ensures HitLoads(w, p, shell, files) {
        UnpackLoads(w, p, out[Primary(p.lang)], files);
        if IsJava(p.lang) {
          OneDocumentWritten(p.code);
        }
      }
    } else if f :| f in out && f != Primary(p.lang) {
      var shell := (commands: string, files: Files) => none;
      assert f !in Unpacked(w.(shell := shell), p, out[Primary(p.lang)], none);
      assert !HitLoads(w, p, shell, none);
    } else {
      var shell := (commands: string, files: Files) => none;
      CutExecuted(p.code);
      assert Primary(p.lang) !in Unpacked(w.(shell := shell), p, out[Primary(p.lang)], none);
      assert !HitLoads(w, p, shell, none);
    }
  }

  /** With such a shell, the artifact of the program readies a container with these files. */
  predicate HitLoads(w: World, p: Prog, shell: (string, Files) -> Files, files: Files)
    requires Compiled(p.lang) && Runs(w, p) && Primary(p.lang) in Program(w, p)
  {
    Loaded(w, p, Unpacked(w.(shell := shell), p, Program(w, p)[Primary(p.lang)], files))
  }

  /**
   * What is archived after a successful compiler run belongs to the build, whatever is left in the
   * container from others and whatever a shell makes of commands, if and only if the build has the main
   * file.
   */
  lemma ArchiveExactly(w: World, p: Prog)
    requires Compiled(p.lang) && Runs(w, p)
    ensures (forall shell, files :: ArchivesOwn(w, p, shell, files)) <==> Primary(p.lang) in Program(w, p)
  {
    var out, main := Program(w, p), Primary(p.lang);
    if main !in out {
      var shell := (commands: string, files: Files) => files;
      var left: Files := map[main := "another program"];
      assert main != SourceFile(p.lang);
      assert BuiltOver(w.(shell := shell), p, out, left)[main] == "another program";
      assert !ArchivesOwn(w, p, shell, left);
    }
  }

  /** With such a shell, what is archived from a container that had these files is the program's main file. */
  predicate ArchivesOwn(w: World, p: Prog, shell: (string, Files) -> Files, files: Files)
    requires Compiled(p.lang) && Runs(w, p)
  {
    var over := BuiltOver(w.(shell := shell), p, Program(w, p), files);
    Primary(p.lang) in over ==> BelongsTo(over[Primary(p.lang)], Primary(p.lang), Program(w, p))
  }

  predicate BelongsTo(text: string, name: string, out: Files) {
    name in out && out[name] == text
  }

  /** The build does not depend on the container; it fails, or it makes a main file that is not empty. */
  predicate BuildsWell(w: World, p: Prog) {
    Certain(p) &&
    match FreshBuild(w, p)
    case Built(out) => Primary(p.lang) in out && out[Primary(p.lang)] != ""
    case Rejected(_) => true
  }

  /** Failures were added, and each was passed on. */
  predicate OnlyPassedOn(past: Past, past': Past) {
    && past'.failures - past.failures == past'.hard - past.hard >= 0
    && past'.late == past.late && past'.ran == past.ran && past.built <= past'.built
  }

  predicate OnlyFailed(past: Asked, past': Asked) {
    past.failures <= past'.failures && past'.found == past.found && past'.missed == past.missed
  }

  /** compile_c, compile_cpp and compile_java differ in the compiler and the file names only. */
  method CompileProgram(w: World, p: Prog, c: nat, docker: Docker, redis: RedisClient, ghost stale: set<Prog>)
    returns (r: Option<Prepared>)
    requires WorldOk(w) && Compiled(p.lang) && OfPair(p) && c in docker.files && StoreGood(w, stale, redis.store)
    modifies docker`files, docker`past, redis
    ensures OnlyAt(old(docker.files), docker.files, c)
    ensures OnlyPassedOn(old(docker.past), docker.past) && OnlyFailed(old(redis.past), redis.past)
    ensures StoreGood(w, stale, redis.store)
    ensures if r.None? then docker.past.failures > old(docker.past.failures) || !BuildsWell(w, p)
            else docker.past.failures == old(docker.past.failures)
    ensures r.Some? ==> KnowsBuild(w, p, r.value.runnable, r.value.stderr)
    ensures r.Some? && r.value.runnable && Certain(p) ==> Loaded(w, p, docker.files[c])
    ensures r.Some? && r.value.runnable && redis.past.failures == old(redis.past.failures) ==>
      ArtifactHit(redis.store, ArtifactKey(w, p)).Some?
    ensures Certain(p) && !Runs(w, p) ==> redis.store == old(redis.store)
    ensures SameOff(old(redis.store), redis.store, ArtifactKey(w, p))
  {
    hide PoolKeys, OneDocument, FreshBuild, Scripted, StoreGood, Digests, Local, Complains;
    var ok := docker.WriteSource(w, p, c);
    if !ok {
      return None;
    }
    var build := docker.Compile(w, p, c);
    if build.None? {
      return None;
    }
    assert build.value == BuildIn(w, p, old(docker.files)[c]);
    match build.value
    case Rejected(e) => r := Some(Prepared(false, e));
    case Built(out) =>
      var ready := Archive(w, p, c, docker, redis, stale);
      r := if ready then Some(Prepared(true, "")) else None;
  }

  /** The main file that a successful compiler run has left is fetched and stored. */
  method Archive(w: World, p: Prog, c: nat, docker: Docker, redis: RedisClient, ghost stale: set<Prog>)
    returns (ready: bool)
    requires Compiled(p.lang) && OfPair(p) && c in docker.files && StoreGood(w, stale, redis.store)
    requires Certain(p) ==> Loaded(w, p, docker.files[c])
    modifies docker`past, redis
    ensures OnlyPassedOn(old(docker.past), docker.past) && OnlyFailed(old(redis.past), redis.past)
    ensures StoreGood(w, stale, redis.store) && SameOff(old(redis.store), redis.store, ArtifactKey(w, p))
    ensures if ready then docker.past.failures == old(docker.past.failures)
            else docker.past.failures > old(docker.past.failures) || !BuildsWell(w, p)
    ensures ready && redis.past.failures == old(redis.past.failures) ==>
      ArtifactHit(redis.store, ArtifactKey(w, p)).Some?
  {
    var binary := docker.Fetch(c, Primary(p.lang));
    if binary.None? {
      return false;
    }
    assert Certain(p) ==> BinaryOf(w, p, binary.value);
    ArtifactGood(w, stale, redis.store, p, binary.value);
    var stored := redis.SetArtifact(ArtifactKey(w, p), p.code, binary.value);
    ready := true;
  }

  /** An artifact found in the cache is put into the container; the Java handler writes the source as well. */
  method Unpack(w: World, p: Prog, b: string, c: nat, docker: Docker) returns (ok: bool)
    requires c in docker.files
    modifies docker`files, docker`past
    ensures OnlyAt(old(docker.files), docker.files, c)
    ensures docker.past == After(old(docker.past), !ok, true)
    ensures ok ==> docker.files[c] == Unpacked(w, p, b, old(docker.files)[c])
  {
    ok := docker.Upload(c, Primary(p.lang), b);
    if ok && IsJava(p.lang) {
      ok := docker.WriteSource(w, p, c);
    }
  }

  /**
   * handle_c_artifact, handle_cpp_artifact and handle_java_artifact: hit, miss and cache error all
   * lead to the same run command and, for a program that is one file, to the same program. Unless an
   * operation failed, the artifact is in the cache afterwards; and one that is there before is unpacked, and
   * nothing compiled.
   */
  method HandleArtifact(w: World, p: Prog, c: nat, docker: Docker, redis: RedisClient, ghost stale: set<Prog>)
    returns (r: Option<Prepared>)
    requires WorldOk(w) && Compiled(p.lang) && OfPair(p) && c in docker.files && StoreGood(w, stale, redis.store)
    modifies docker`files, docker`past, redis
    ensures OnlyAt(old(docker.files), docker.files, c)
    ensures OnlyPassedOn(old(docker.past), docker.past) && OnlyFailed(old(redis.past), redis.past)
    ensures StoreGood(w, stale, redis.store)
    ensures if r.None? then docker.past.failures > old(docker.past.failures) || !BuildsWell(w, p)
            else docker.past.failures == old(docker.past.failures)
    ensures r.Some? ==> KnowsBuild(w, p, r.value.runnable, r.value.stderr)
    ensures r.Some? && r.value.runnable && Whole(w, p) ==> Loaded(w, p, docker.files[c])
    ensures r.Some? && r.value.runnable && redis.past.failures == old(redis.past.failures) ==>
      ArtifactHit(redis.store, ArtifactKey(w, p)).Some?
    ensures Certain(p) && !Runs(w, p) ==> redis.store == old(redis.store)
    ensures SameOff(old(redis.store), redis.store, ArtifactKey(w, p))
    ensures var hit := ArtifactHit(old(redis.store), ArtifactKey(w, p));
      redis.past.failures == old(redis.past.failures) && hit.Some? ==>
        && docker.past.built == old(docker.past.built) && redis.store == old(redis.store)
        && (r.Some? ==> docker.files[c] == Unpacked(w, p, hit.value, old(docker.files)[c]))
  {
    var hit := redis.GetArtifact(ArtifactKey(w, p), false);
    if hit.Answer? && hit.value.Some? {
      ArtifactHitIsOurs(w, stale, redis.store, p);
      if Whole(w, p) {
        UnpackLoads(w, p, hit.value.value, docker.files[c]);
      }
      var ok := Unpack(w, p, hit.value.value, c, docker);
      r := if ok then Some(Prepared(true, "")) else None;
    } else {
      r := CompileProgram(w, p, c, docker, redis, stale);
    }
  }
}
