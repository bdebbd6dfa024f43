/**
 * The services that the executor calls: the container engine and the cache. Any call may fail.
 */
module Services {
  import opened Options
  import opened Platform
  import opened Keys
  import opened Store

  /** Only the files of one container may have changed. */
  predicate OnlyAt(files: map<nat, Files>, files': map<nat, Files>, c: nat) {
    files'.Keys == files.Keys && forall x :: x in files && x != c ==> files'[x] == files[x]
  }

  /** How a shell command went: executed, or not created, or created and not started in time. */
  datatype Started = Done | NotCreated | NotStarted

  /** A run that was asked for: of which request of the call, and on which container. */
  datatype Tried = Tried(k: nat, box: nat)

  /**
   * What the caller has met so far: how many operations have failed, how many of them in a way that
   * the code passes on by `?`, how many writes of a source were late, how often it has compiled, and what it
   * has run. The operations of other calls are not counted.
   */
  datatype Past = Past(failures: nat, hard: nat, late: nat, built: nat, ran: seq<Tried>)

  /** The same with one failure more, perhaps passed on. */
  function After(past: Past, failed: bool, passedOn: bool): Past {
    if failed then past.(failures := past.failures + 1, hard := past.hard + if passedOn then 1 else 0) else past
  }

  /** From one to the other only failures, late writes and compilations were added. */
  predicate Since(past: Past, past': Past) {
    && past.failures <= past'.failures && past.late <= past'.late && past.built <= past'.built
    && 0 <= past'.hard - past.hard <= past'.failures - past.failures
  }

  /** The same, and nothing was compiled. */
  predicate SinceLoaded(past: Past, past': Past) {
    Since(past, past') && past'.built == past.built
  }

  /** The container engine: the files under /app of every container. */
  class Docker {
    var files: map<nat, Files>
    var next: nat
    ghost var past: Past

    ghost predicate Valid()
      reads this
    {
      forall c :: c in files ==> c < next
    }

    constructor ()
      ensures Valid() && files == map[]
    {
      files, next, past := map[], 0, Past(0, 0, 0, 0, []);
    }

    /** `create_container` and `start_container`: a container no one has seen before, or a failure. */
    method Create() returns (r: Option<nat>)
      requires Valid()
      modifies this
      ensures Valid() && past == After(old(past), r.None?, false)
      ensures r.None? ==> files == old(files)
      ensures r.Some? ==> r.value !in old(files) && files == old(files)[r.value := map[]]
    {
      var ok: bool := *;
      if ok {
        r := Some(next);
        files, next := files[next := map[]], next + 1;
      } else {
        past := After(past, true, false);
        r := None;
      }
    }

    /** One file is uploaded; if that fails, anything may be left in the container. */
    method Upload(c: nat, name: string, text: string) returns (ok: bool)
      requires c in files
      modifies this`files, this`past
      ensures past == After(old(past), !ok, true)
      ensures OnlyAt(old(files), files, c)
      ensures ok ==> files[c] == old(files)[c][name := text]
    {
      ok := *;
      if ok {
        files := files[c := files[c][name := text]];
      } else {
        var junk: Files := *;
        files, past := files[c := junk], After(past, true, true);
      }
    }

    /** One file is written by `echo`; if the command is not started in time, anything may be left in the container. */
    method Echo(c: nat, name: string, text: string) returns (r: Started)
      requires c in files
      modifies this`files, this`past
      ensures past ==
        After(old(past), !r.Done?, r.NotCreated?).(late := old(past).late + if r.NotStarted? then 1 else 0)
      ensures OnlyAt(old(files), files, c)
      ensures r.Done? ==> files[c] == old(files)[c][name := text]
    {
      r := *;
      match r
      case Done => files := files[c := files[c][name := text]];
      case NotCreated => past := After(past, true, true);
      case NotStarted =>
        var junk: Files := *;
        files, past := files[c := junk], After(past, true, false).(late := past.late + 1);
    }

    /** The script with the here-document for the source is executed. */
    method WriteSource(w: World, p: Prog, c: nat) returns (ok: bool)
      requires c in files
      modifies this`files, this`past
      ensures past == After(old(past), !ok, true)
      ensures OnlyAt(old(files), files, c)
      ensures ok ==> files[c] == Scripted(w, p, old(files)[c])
    {
      ok := *;
      if ok {
        files := files[c := Scripted(w, p, files[c])];
      } else {
        var junk: Files := *;
        files, past := files[c := junk], After(past, true, true);
      }
    }

    /** The compiler is run on the source file of the container. */
    method Compile(w: World, p: Prog, c: nat) returns (r: Option<Build>)
      requires c in files
      modifies this`files, this`past
      ensures past == After(old(past), r.None?, true).(built := old(past).built + 1)
      ensures OnlyAt(old(files), files, c)
      ensures r.Some? ==> r.value == w.compile(p.lang, p.ver, old(files)[c])
      ensures r.Some? && r.value.Rejected? ==> files == old(files)
      ensures r.Some? && r.value.Built? ==> files[c] == old(files)[c] + r.value.files
    {
      past := past.(built := past.built + 1);
      var ok: bool := *;
      if !ok {
        var junk: Files := *;
        files, past := files[c := junk], After(past, true, true);
        return None;
      }
      r := Some(w.compile(p.lang, p.ver, files[c]));
      if r.value.Built? {
        files := files[c := files[c] + r.value.files];
      }
    }

    /** `fetch_file_from_container`: a missing or empty file is an error too. */
    method Fetch(c: nat, name: string) returns (r: Option<string>)
      requires c in files
      modifies this`past
      ensures past == old(past) || past == After(old(past), true, true)
      ensures r.Some? ==> name in files[c] && files[c][name] == r.value != "" && past == old(past)
      ensures r.None? && past == old(past) ==> name !in files[c] || files[c][name] == ""
    {
      var ok: bool := *;
      if !ok {
        past := After(past, true, true);
        return None;
      }
      r := if name in files[c] && files[c][name] != "" then Some(files[c][name]) else None;
    }

    /** Request k is run under the time limit; an empty command is not even created. */
    method Exec(w: World, p: Prog, runnable: bool, limit: nat, stdin: Option<string>, c: nat, ghost k: nat)
      returns (r: Option<Visible>, created: bool)
      requires c in files
      modifies this`past
      ensures past.ran == old(past).ran + [Tried(k, c)] && past.late == old(past).late && past.built == old(past).built
      ensures past.failures == old(past).failures || past.failures == old(past).failures + 1
      ensures past.hard == old(past).hard + (if past.failures > old(past).failures && !created then 1 else 0)
      ensures r.Some? || past.failures == old(past).failures ==> Output(w, p, runnable, limit, stdin, files[c]) == r
      ensures r.Some? ==> created && past.failures == old(past).failures
      ensures r.None? && past.failures == old(past).failures ==> !created
    {
      past := past.(ran := past.ran + [Tried(k, c)]);
      var how: Started := *;
      match how
      case Done =>
        r := Output(w, p, runnable, limit, stdin, files[c]);
        created := r.Some?;
      case NotCreated =>
        past := After(past, true, true);
        r, created := None, false;
      case NotStarted =>
        past := After(past, true, false);
        r, created := None, true;
    }
  }

  /** What a get answers: the connection or the decoding of the value may fail. */
  datatype Reply<+T> = Answer(value: Option<T>) | Failed

  /**
   * What the caller has met: how often the connection has failed, how many lookups for a first request have
   * found something, and how many for a further container nothing.
   */
  datatype Asked = Asked(failures: nat, found: nat, missed: nat)

  predicate SinceAsked(past: Asked, past': Asked) {
    past.failures <= past'.failures && past.found <= past'.found && past.missed <= past'.missed
  }

  class RedisClient {
    var store: map<string, Entry>
    ghost var past: Asked

    constructor ()
      ensures store == map[]
    {
      store, past := map[], Asked(0, 0, 0);
    }

    method GetFromCache(key: string, ghost first: bool) returns (r: Reply<Visible>)
      modifies this`past
      ensures past.failures >= old(past).failures && past.missed == old(past).missed
      ensures past.found == old(past).found + (if first && r.Answer? && r.value.Some? then 1 else 0)
      ensures r.Answer? && r.value.Some? ==> ResultHit(store, key) == r.value
      ensures r.Answer? && r.value.None? ==> key !in store
      ensures past.failures == old(past).failures && r.Failed? ==> ResultHit(store, key).None?
    {
      var ok: bool := *;
      if !ok {
        past := past.(failures := past.failures + 1);
        r := Failed;
      } else if key in store && !store[key].ResultEntry? {
        r := Failed;
      } else {
        r := Answer(ResultHit(store, key));
        past := past.(found := past.found + if first && r.value.Some? then 1 else 0);
      }
    }

    method SetInCache(key: string, v: Visible) returns (ok: bool)
      modifies this
      ensures past == if ok then old(past) else old(past).(failures := old(past).failures + 1)
      ensures store == if ok then old(store)[key := ResultEntry(v)] else old(store)
    {
      ok := *;
      if ok {
        store := store[key := ResultEntry(v)];
      } else {
        past := past.(failures := past.failures + 1);
      }
    }

    method GetArtifact(key: string, ghost further: bool) returns (r: Reply<string>)
      modifies this`past
      ensures past.failures >= old(past).failures && past.found == old(past).found
      ensures past.missed == old(past).missed + (if further && !(r.Answer? && r.value.Some?) then 1 else 0)
      ensures r.Answer? && r.value.Some? ==> ArtifactHit(store, key) == r.value
      ensures r.Answer? && r.value.None? ==> key !in store
      ensures past.failures == old(past).failures && r.Failed? ==> ArtifactHit(store, key).None?
    {
      var ok: bool := *;
      if !ok {
        past := past.(failures := past.failures + 1);
        r := Failed;
      } else if key in store && !store[key].ArtifactEntry? {
        r := Failed;
      } else {
        r := Answer(ArtifactHit(store, key));
      }
      past := past.(missed := past.missed + if further && !(r.Answer? && r.value.Some?) then 1 else 0);
    }

    method SetArtifact(key: string, code: string, binary: string) returns (ok: bool)
      modifies this
      ensures past == if ok then old(past) else old(past).(failures := old(past).failures + 1)
      ensures store == if ok then old(store)[key := ArtifactEntry(code, binary)] else old(store)
    {
      ok := *;
      if ok {
        store := store[key := ArtifactEntry(code, binary)];
      } else {
        past := past.(failures := past.failures + 1);
      }
    }
  }
}
