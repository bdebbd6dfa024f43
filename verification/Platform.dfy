/**
 * What surrounds the service: compilers, programs, digests and number printing, all taken as
 * unknown but fixed functions, and what a request means when nothing is cached.
 */
module Platform {
  import opened Options
  import opened Text
  import Shell

  /** The files of a container's /app directory. */
  type Files = map<string, string>

  /** The part of an EvaluationResult that a program determines. */
  datatype Visible = Visible(stdout: string, stderr: Option<string>, exitCode: int)

  /** A finished process; `time` counts a fixed unit that every f64 number of seconds is a multiple of. */
  datatype Process = Process(stdout: string, stderr: string, exitCode: int, time: nat)

  datatype Build = Built(files: Files) | Rejected(stderr: string)

  /** A trimmed language, a trimmed version and trimmed code. */
  datatype Prog = Prog(lang: string, ver: string, code: string)

  datatype World = World(
    total: nat,                // permits of the semaphore
    home: map<nat, string>,    // the containers made at start-up, with the pool key each was made for
    second: nat,               // the limit 1.0 in time units
    defaultTimeout: nat,       // DEFAULT_TIMEOUT in time units
    sha: string -> string,     // hexadecimal SHA-256
    show: nat -> string,       // a number of seconds, printed
    compile: (string, string, Files) -> Build,  // the compiler, run where a container has these files
    exec: (string, string, Files, Option<string>) -> Process,
    blank: Option<string> -> Process,  // the shell given an empty command
    shell: (string, Files) -> Files)   // what commands, run in /app, make of the files there

  /** The pairs that get a pool and workers at start-up. */
  const PAIRS: seq<(string, string)> := [
    ("python", "3.9"), ("pypy", "3.9"), ("java", "java-slim-executor"), ("java11", "11"),
    ("c", "11"), ("cpp", "11"), ("javascript", "18")]

  predicate Configured(lang: string) {
    lang in ["python", "pypy", "java", "java11", "c", "cpp", "javascript"]
  }

  predicate Compiled(lang: string) {
    lang in ["java", "java11", "c", "cpp"]
  }

  predicate Interpreted(lang: string) {
    lang in ["python", "javascript"]
  }

  function SourceFile(lang: string): string {
    if lang == "c" then "main.c"
    else if lang == "cpp" then "main.cpp"
    else if lang == "java" || lang == "java11" then "Main.java"
    else if lang == "python" then "main.py"
    else if lang == "javascript" then "main.js"
    else "main"
  }

  /** The one file that an artifact keeps of a build. */
  function Primary(lang: string): string {
    if lang == "c" || lang == "cpp" then "main" else "Main.class"
  }

  /** What the here-document leaves in the source file. */
  function Written(code: string): string {
    Shell.Body(Shell.Document(code, "EOF"), "EOF").word
  }

  /** What is left of the script behind the here-document: the shell goes on to execute it. */
  function Tail(code: string): string {
    Shell.Body(Shell.Document(code, "EOF"), "EOF").rest
  }

  /** No line of the code ends the here-document. */
  predicate OneDocument(code: string) {
    "EOF" !in Shell.Lines(code)
  }

  /** Such code is written as it is, and nothing is executed behind it. */
  lemma OneDocumentWritten(code: string)
    requires OneDocument(code)
    ensures Written(code) == code + "\n" && Tail(code) == ""
  {
    Shell.DocumentComplete(code, "EOF");
  }

  /** With a line that does, something is. */
  lemma CutExecuted(code: string)
    requires !OneDocument(code)
    ensures Tail(code) != ""
  {
    Shell.CutLeavesTail(code, "EOF");
  }

  /** The files after the script that writes the source has run. */
  function Scripted(w: World, p: Prog, files: Files): Files {
    var written := files[SourceFile(p.lang) := Written(p.code)];
    if Tail(p.code) == "" then written else w.shell(Tail(p.code), written)
  }

  predicate IsJava(lang: string) {
    lang == "java" || lang == "java11"
  }

  /** The source is written where these files are, and the compiler run on it. */
  function BuildIn(w: World, p: Prog, files: Files): Build {
    w.compile(p.lang, p.ver, Scripted(w, p, files))
  }

  /** The build of the program on a fresh container. */
  function FreshBuild(w: World, p: Prog): Build {
    BuildIn(w, p, map[])
  }

  /** The script that writes the source of a compiled program does nothing else. */
  predicate Certain(p: Prog) {
    Compiled(p.lang) ==> OneDocument(p.code)
  }

  /** The run command is not empty: there is something to run. */
  predicate Runs(w: World, p: Prog) {
    Compiled(p.lang) ==> FreshBuild(w, p).Built?
  }

  /** The files that make up a program. */
  function Program(w: World, p: Prog): Files
    requires Runs(w, p)
  {
    if Compiled(p.lang) then FreshBuild(w, p).files
    else map[SourceFile(p.lang) := p.code]
  }

  predicate Covers(files: Files, part: Files) {
    forall f :: f in part ==> f in files && files[f] == part[f]
  }

  /** The container can run the program. */
  predicate Loaded(w: World, p: Prog, files: Files) {
    Runs(w, p) && Covers(files, Program(w, p))
  }

  /**
   * The script that writes the source of a compiled program does nothing else, and its build, if it has
   * one, is exactly the file that an artifact keeps.
   */
  predicate Whole(w: World, p: Prog) {
    Certain(p) && (Compiled(p.lang) && Runs(w, p) ==> Program(w, p).Keys == {Primary(p.lang)})
  }

  const TIMED_OUT := Visible("Time Limit Exceeded", Some("Time Limit Exceeded"), 124)

  /** How a process shows in a result when it may take at most `limit`. */
  function Show(r: Process, limit: nat): Visible {
    if r.time > limit then TIMED_OUT
    else Visible(r.stdout, if r.stderr == "" then None else Some(r.stderr), r.exitCode)
  }

  function CompileError(stderr: string): Visible {
    Visible(stderr, Some(stderr), 1)
  }

  const PLACEHOLDER := Visible("", None, 0)

  /** The result of a request on a fresh container with empty caches, when no foreign call fails. */
  function Fresh(w: World, p: Prog, limit: nat, stdin: Option<string>): Visible {
    if Runs(w, p) then Show(w.exec(p.lang, p.ver, Program(w, p), stdin), limit)
    else
      var e := FreshBuild(w, p).stderr;
      if e != "" then CompileError(e) else Show(w.blank(stdin), limit)
  }

  predicate FailsToBuild(w: World, p: Prog) {
    !Runs(w, p) && FreshBuild(w, p).stderr != ""
  }

  /** The result of a batch: a plain map over the requests, cut short when the first one fails. */
  function BatchResult(w: World, p: Prog, limit: nat, stdins: seq<Option<string>>): (r: seq<Visible>)
    requires |stdins| > 0
    ensures |r| == |stdins|
  {
    var first := Fresh(w, p, limit, stdins[0]);
    if FailsToBuild(w, p) || first.exitCode != 0 then [first] + seq(|stdins| - 1, _ => PLACEHOLDER)
    else seq(|stdins|, i requires 0 <= i < |stdins| => Fresh(w, p, limit, stdins[i]))
  }

  ghost predicate Injective<A(!new), B>(f: A -> B) {
    forall x, y :: f(x) == f(y) ==> x == y
  }

  /** A run reads no file of /app outside its own program, if that program has its main file. */
  ghost predicate Local(w: World) {
    forall p: Prog, files: Files, stdin: Option<string> {:trigger Loaded(w, p, files),
      w.exec(p.lang, p.ver, files, stdin)} ::
      Loaded(w, p, files) && (Compiled(p.lang) ==> Primary(p.lang) in Program(w, p)) ==>
        w.exec(p.lang, p.ver, files, stdin) == w.exec(p.lang, p.ver, Program(w, p), stdin)
  }

  /** Digests and printed numbers tell their arguments apart and hold no colon. */
  ghost predicate Digests(w: World) {
    && Injective(w.sha) && (forall s :: w.sha(s) != "" && NoColon(w.sha(s)))
    && Injective(w.show) && (forall t :: NoColon(w.show(t)))
  }

  /** Given an empty command the shell reports a syntax error on stderr. */
  ghost predicate Complains(w: World) {
    forall stdin :: w.blank(stdin).stderr != ""
  }

  /** A compiler reads no file but the source: whatever else the container has, the build is the same. */
  ghost predicate ReadsSource(w: World) {
    forall p: Prog, files: Files :: Compiled(p.lang) && OneDocument(p.code) ==> BuildIn(w, p, files) == FreshBuild(w, p)
  }

  /** What is taken for granted of the surroundings: also, that `gcc -o main` makes one file. */
  ghost predicate WorldOk(w: World) {
    && Digests(w) && Local(w) && ReadsSource(w) && Complains(w)
    && (forall p: Prog :: p.lang in ["c", "cpp"] && Runs(w, p) ==> Program(w, p).Keys == {Primary(p.lang)})
    && (forall c :: c in w.home ==> w.home[c] in PoolKeys())
  }

  function PoolKey(lang: string, ver: string): string {
    lang + ":" + ver
  }

  function PoolKeys(): set<string> {
    set i | 0 <= i < |PAIRS| :: PoolKey(PAIRS[i].0, PAIRS[i].1)
  }

  function KeyOf(p: Prog): string {
    PoolKey(p.lang, p.ver)
  }

  /** The pool key of a configured pair is the key of no other texts. */
  lemma PoolKeyUnique(lang: string, ver: string)
    requires PoolKey(lang, ver) in PoolKeys()
    ensures (lang, ver) in PAIRS
    ensures NoColon(lang) && NoColon(ver) && Configured(lang)
  {
    var i :| 0 <= i < |PAIRS| && PoolKey(PAIRS[i].0, PAIRS[i].1) == PoolKey(lang, ver);
    OnlyColon(PAIRS[i].0, PAIRS[i].1, lang, ver);
    assert (lang, ver) == PAIRS[i];
  }
}
