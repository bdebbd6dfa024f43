/**
 * What the answer to a request is to be, said once more, from the fields of the requests, the compiler and
 * the running of programs alone. Nothing that handles a request uses this; that what the other modules
 * want is the same is proved here, both ways.
 */
module Meaning {
  import opened Options
  import opened Text
  import opened Platform
  import opened Keys
  import opened Store
  import opened Custody
  import opened Engine

  import Shell

  /** The result tells of this process, which had so much time. */
  predicate Tells(r: Process, limit: nat, v: Visible) {
    if r.time <= limit then
      && v.stdout == r.stdout && v.exitCode == r.exitCode
      && (v.stderr.None? <==> r.stderr == "") && (v.stderr.Some? ==> v.stderr.value == r.stderr)
    else v == Visible("Time Limit Exceeded", Some("Time Limit Exceeded"), 124)
  }

  /** How long a run of the request may take. */
  function Allowed(w: World, r: Request): nat {
    match r.timeout
    case Some(t) => t
    case None => w.defaultTimeout
  }

  /** The file that is given to the compiler, or to the interpreter. */
  function FileOf(lang: string): string {
    match lang
    case "c" => "main.c"
    case "cpp" => "main.cpp"
    case "java" => "Main.java"
    case "java11" => "Main.java"
    case "python" => "main.py"
    case "javascript" => "main.js"
    case _ => "main"
  }

  predicate IsCompiled(lang: string) {
    lang == "c" || lang == "cpp" || lang == "java" || lang == "java11"
  }

  /** The compiler is run on the source alone. */
  function BuildOf(w: World, r: Request): Build {
    var lang := Trim(r.language);
    w.compile(lang, Trim(r.version), map[FileOf(lang) := Trim(r.code) + "\n"])
  }

  /** The compiler rejects the program, and says why. */
  predicate IsRejected(w: World, r: Request) {
    IsCompiled(Trim(r.language)) && BuildOf(w, r).Rejected? && BuildOf(w, r).stderr != ""
  }

  /** The answer to the program of the request, run on this stdin. */
  predicate Answers(w: World, r: Request, stdin: Option<string>, v: Visible) {
    var lang, ver := Trim(r.language), Trim(r.version);
    if !IsCompiled(lang) then
      Tells(w.exec(lang, ver, map[FileOf(lang) := Trim(r.code)], stdin), Allowed(w, r), v)
    else
      match BuildOf(w, r)
      case Built(out) => Tells(w.exec(lang, ver, out, stdin), Allowed(w, r), v)
      case Rejected(e) =>
        if e != "" then v.stdout == e && v.stderr == Some(e) && v.exitCode == 1
        else Tells(w.blank(stdin), Allowed(w, r), v)
  }

  /**
   * The answers to a batch: the program of the first request on the stdin of each, in order; if the first
   * does not exit with 0, the others have placeholders.
   */
  predicate BatchAnswers(w: World, requests: seq<Request>, results: seq<Visible>)
    requires requests != []
  {
    && |results| == |requests|
    && Answers(w, requests[0], requests[0].stdin, results[0])
    && if results[0].exitCode == 0 then
         forall k :: 0 <= k < |requests| ==> Answers(w, requests[0], requests[k].stdin, results[k])
       else forall k :: 0 < k < |results| ==> results[k] == Visible("", None, 0)
  }

  /** The first request of a batch has an answer that exits with 0. */
  ghost predicate EndsWell(w: World, r: Request) {
    exists v :: Answers(w, r, r.stdin, v) && v.exitCode == 0
  }

  /** What handle_execute and `execute_parallel` look up first: the fields as they came, and 1.0 for no timeout. */
  function QuickKey(w: World, r: Request): string {
    ResultKey(w, Prog(r.language, r.version, r.code), match r.timeout case Some(t) => t case None => w.second, r.stdin)
  }

  /** There is a result under that key. */
  predicate QuicklyFound(w: World, r: Request, store: map<string, Entry>) {
    QuickKey(w, r) in store && store[QuickKey(w, r)].ResultEntry?
  }

  /** An absent timeout is no longer in that key than it is for a run. */
  predicate QuickIsPatient(w: World, r: Request) {
    r.timeout.None? ==> w.second <= w.defaultTimeout
  }

  /** `execute` knows the language. */
  predicate Supported(r: Request) {
    Trim(r.language) in {"python", "pypy", "java", "java11", "c", "cpp", "javascript"}
  }

  /** A later request names another language, or another version, than the first one. */
  predicate Mixed(requests: seq<Request>)
    requires requests != []
  {
    exists k :: 0 < k < |requests| && Differs(requests[0], requests[k])
  }

  predicate Differs(first: Request, r: Request) {
    || (Trim(r.language) != "" && Trim(r.language) != Trim(first.language))
    || (Trim(r.version) != "" && Trim(r.version) != Trim(first.version))
  }

  /** `execute_batch` goes on with the requests: what those after the first name does not matter if that is compiled. */
  predicate BatchSupported(requests: seq<Request>)
    requires requests != []
  {
    || IsCompiled(Trim(requests[0].language))
    || (Trim(requests[0].language) in {"python", "javascript"} && !Mixed(requests))
  }

  /** The program of the request, and the version after it, is one that results and artifacts tell apart. */
  function ProgramOf(r: Request): Prog {
    Prog(Trim(r.language), Trim(r.version), Trim(r.code))
  }

  /** The build does not depend on the container, and a successful one leaves a main file that is not empty. */
  predicate BuildIsUsable(w: World, r: Request) {
    && "EOF" !in Shell.Lines(Trim(r.code))
    && match BuildOf(w, r)
       case Built(out) =>
         var main := if Trim(r.language) in {"c", "cpp"} then "main" else "Main.class";
         main in out && out[main] != ""
       case Rejected(_) => true
  }

  /** The text under which the containers for the request are pooled. */
  function PairOf(r: Request): string {
    Trim(r.language) + ":" + Trim(r.version)
  }

  /** There is a container for the request. */
  predicate HasContainer(r: Request, pool: Pool) {
    PairOf(r) in pool && pool[PairOf(r)] != []
  }

  /** So many containers can be taken, one after the other. */
  predicate CanTake(pool: Pool, key: string, n: nat) {
    n == 0 || (Take(pool, key).1.Some? && CanTake(Take(pool, key).0, key, n - 1))
  }

  /** Nothing but a failure of the engine can keep `execute` from a result. */
  predicate CanServe(w: World, r: Request, pool: Pool) {
    && Supported(r) && HasContainer(r, pool)
    && (IsCompiled(Trim(r.language)) ==>
      BuildIsUsable(w, r) && (BuildOf(w, r).Rejected? && BuildOf(w, r).stderr == "" ==> r.stdin.Some?))
  }

  /** Nothing but a failure of the engine, or a lack of permits, can keep `execute_batch` from its results. */
  predicate CanServeBatch(w: World, requests: seq<Request>, pool: Pool)
    requires requests != []
  {
    var r := requests[0];
    && BatchSupported(requests) && HasContainer(r, pool)
    && (IsCompiled(Trim(r.language)) ==>
      && BuildIsUsable(w, r)
      && (BuildOf(w, r).Rejected? ==>
            && r.stdin.Some?
            && (BuildOf(w, r).stderr == "" ==> forall k :: 0 <= k < |requests| ==> requests[k].stdin.Some?)))
  }

  // ---------------------------------------------------------------- the same as elsewhere

  lemma TellsExactly(r: Process, limit: nat, v: Visible)
    ensures Tells(r, limit, v) <==> v == Show(r, limit)
  {
  }

  lemma BuildExactly(w: World, r: Request)
    requires Certain(ProgramOf(r)) && Compiled(Trim(r.language))
    ensures BuildOf(w, r) == FreshBuild(w, ProgramOf(r))
  {
    hide Trim;
    OneDocumentWritten(Trim(r.code));
    var source := Trim(r.code) + "\n";
    assert map[][SourceFile(Trim(r.language)) := source] == map[FileOf(Trim(r.language)) := source];
  }

  lemma RejectedExactly(w: World, r: Request)
    ensures Certain(ProgramOf(r)) ==> (IsRejected(w, r) <==> FailsToBuild(w, ProgramOf(r)))
  {
    hide Trim, BuildOf, FreshBuild;
    if Certain(ProgramOf(r)) && Compiled(Trim(r.language)) {
      BuildExactly(w, r);
    }
  }

  /** The answer to a request is its result on a fresh container with empty caches. */
  lemma AnswersExactly(w: World, r: Request, stdin: Option<string>, v: Visible)
    requires Certain(ProgramOf(r))
    ensures Answers(w, r, stdin, v) <==> v == Fresh(w, ProgramOf(r), Allowed(w, r), stdin)
  {
    hide Trim, OneDocument, FreshBuild, BuildOf, Tells, Show;
    var p := ProgramOf(r);
    if Compiled(p.lang) {
      BuildExactly(w, r);
      match FreshBuild(w, p)
      case Built(out) => TellsExactly(w.exec(p.lang, p.ver, out, stdin), Allowed(w, r), v);
      case Rejected(_) => TellsExactly(w.blank(stdin), Allowed(w, r), v);
    } else {
      TellsExactly(w.exec(p.lang, p.ver, Program(w, p), stdin), Allowed(w, r), v);
    }
  }

  /** The requests of a call, as they came. */
  function Requests(c: Call): seq<Request> {
    [c.first] + c.rest
  }

  /** The answers to a call. */
  predicate CallAnswered(w: World, c: Call, results: seq<Visible>) {
    if c.kind.Batch? then BatchAnswers(w, Requests(c), results)
    else |results| == 1 && Answers(w, c.first, c.first.stdin, results[0])
  }

  lemma OneExactly(w: World, c: Call, k: nat, v: Visible)
    requires Certain(ProgOf(c)) && k < Count(c)
    ensures Answers(w, c.first, Requests(c)[k].stdin, v) <==> v == Fresh(w, ProgOf(c), LimitOf(w, c), Stdin(c, k))
  {
    hide Trim, Answers, Fresh, OneDocument;
    AnswersExactly(w, c.first, Requests(c)[k].stdin, v);
  }

  lemma ManyExactly(w: World, c: Call, results: seq<Visible>)
    requires Certain(ProgOf(c)) && |results| == Count(c)
    ensures (forall k :: 0 <= k < Count(c) ==> Answers(w, c.first, Requests(c)[k].stdin, results[k])) <==>
            results == seq(Count(c), k requires 0 <= k < Count(c) => Fresh(w, ProgOf(c), LimitOf(w, c), Stdins(c)[k]))
  {
    hide Answers, Fresh, OneDocument, ProgOf, LimitOf;
    forall k | 0 <= k < Count(c)
      ensures Answers(w, c.first, Requests(c)[k].stdin, results[k]) <==>
        results[k] == Fresh(w, ProgOf(c), LimitOf(w, c), Stdins(c)[k])
    {
      OneExactly(w, c, k, results[k]);
    }
  }

  /** What is wanted of a call are the answers to it. */
  lemma ExpectedExactly(w: World, c: Call, results: seq<Visible>)
    requires Certain(ProgOf(c))
    ensures results == Expected(w, c) <==> CallAnswered(w, c, results)
  {
    hide Answers, Fresh, OneDocument, ProgOf, LimitOf, FreshBuild;
    if !c.kind.Batch? {
      if |results| == 1 {
        OneExactly(w, c, 0, results[0]);
      }
    } else if |results| == Count(c) {
      assert Stdins(c)[0] == Stdin(c, 0) && Requests(c)[0] == c.first;
      OneExactly(w, c, 0, results[0]);
      FailedShows(w, ProgOf(c), LimitOf(w, c), Stdin(c, 0));
      if results[0].exitCode == 0 {
        ManyExactly(w, c, results);
      }
    }
  }

  lemma FailedShows(w: World, p: Prog, limit: nat, stdin: Option<string>)
    ensures FailsToBuild(w, p) ==> Fresh(w, p, limit, stdin).exitCode == 1
  {
  }

  lemma EndsWellIs(w: World, c: Call)
    requires Certain(ProgOf(c))
    ensures EndsWell(w, c.first) <==> Fresh(w, ProgOf(c), LimitOf(w, c), Stdin(c, 0)).exitCode == 0
  {
    hide Answers, Fresh;
    OneExactly(w, c, 0, Fresh(w, ProgOf(c), LimitOf(w, c), Stdin(c, 0)));
    forall v | Answers(w, c.first, c.first.stdin, v) ensures v == Fresh(w, ProgOf(c), LimitOf(w, c), Stdin(c, 0)) {
      OneExactly(w, c, 0, v);
    }
  }

  /** Which requests `execute` and `execute_batch` go on with. */
  lemma SupportedExactly(c: Call)
    ensures Accepted(c) <==> if c.kind.Batch? then BatchSupported(Requests(c)) else Supported(c.first)
  {
    hide Trim;
    var requests := Requests(c);
    if c.kind.Batch? && Interpreted(ProgOf(c).lang) {
      forall i | 0 <= i < |c.rest| ensures Agrees(c, c.rest[i]) <==> !Differs(c.first, requests[i + 1]) {
      }
      if !Mixed(requests) {
        forall i | 0 <= i < |c.rest| ensures Agrees(c, c.rest[i]) {
          assert !Differs(requests[0], requests[i + 1]);
        }
      }
    }
  }
}
