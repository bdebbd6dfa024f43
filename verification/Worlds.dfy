/**
 * Small worlds that meet every assumption on the surroundings, and the state in which the service
 * starts there. A program prints its own source; those of `c` and `java` are built by copying it.
 */
module Worlds {
  import opened Options
  import opened Text
  import opened Platform
  import opened Keys
  import opened Store
  import opened Custody
  import opened Engine
  import opened ContainerPool

  /** A text without colons for every text. */
  function Escaped(s: string): string {
    if s == "" then "" else (if s[0] == ':' then "!c" else if s[0] == '!' then "!!" else [s[0]]) + Escaped(s[1..])
  }

  function Digest(s: string): string {
    "s" + Escaped(s)
  }

  lemma {:induction false} EscapedNoColon(s: string)
    ensures NoColon(Escaped(s))
  {
    if s != "" {
      EscapedNoColon(s[1..]);
    }
  }

  lemma {:induction false} EscapedUnique(s: string, t: string)
    requires Escaped(s) == Escaped(t)
    ensures s == t
  {
    if s != "" && t != "" {
      var x, y := Escaped(s), Escaped(t);
      assert s[0] == t[0] by {
        assert x[0] == y[0];
        if x[0] == '!' {
          assert x[1] == y[1];
        }
      }
      var n := if s[0] == ':' || s[0] == '!' then 2 else 1;
      assert Escaped(s[1..]) == x[n..] == y[n..] == Escaped(t[1..]);
      EscapedUnique(s[1..], t[1..]);
      assert s == [s[0]] + s[1..] && t == [t[0]] + t[1..];
    }
  }

  function Unary(n: nat): (s: string)
    ensures |s| == n && NoColon(s)
  {
    seq(n, _ => '|')
  }

  /** C and Java are compiled: the build is the source without its last character. */
  function Copier(lang: string, ver: string, files: Files): Build {
    if lang != "c" && lang != "java" then Rejected("no compiler")
    else if SourceFile(lang) !in files || files[SourceFile(lang)] == "" then Rejected("no source")
    else Built(map[Primary(lang) := files[SourceFile(lang)][..|files[SourceFile(lang)]| - 1]])
  }

  /** What is run: the build, or the source. */
  function Executable(lang: string): string {
    if Compiled(lang) then Primary(lang) else SourceFile(lang)
  }

  function Cat(lang: string, files: Files, time: nat): Process {
    Process(if Executable(lang) in files then files[Executable(lang)] else "", "", 0, time)
  }

  function Complaint(stdin: Option<string>): Process {
    Process("", "syntax error", 2, 0)
  }

  /** Whatever commands remove a class, and the source of C if there is a program. */
  function Cleared(commands: string, files: Files): Files {
    if "main" in files then files - {"main.c"} else files - {"Main.class"}
  }

  /** A world with these containers for one pool key; every program takes the same time. */
  function Small(total: nat, key: string, stack: seq<nat>, second: nat, defaultTimeout: nat, time: nat): World {
    World(total, map c | c in Elems(stack) :: key, second, defaultTimeout, Digest, Unary, Copier,
          (lang, ver, files, stdin) => Cat(lang, files, time), Complaint, Cleared)
  }

  lemma DigestsTell(w: World)
    requires w.sha == Digest && w.show == Unary
    ensures Digests(w)
  {
    forall s, t | Digest(s) == Digest(t) ensures s == t {
      DropPrefix("s", Escaped(s), Escaped(t));
      EscapedUnique(s, t);
    }
    forall s ensures Digest(s) != "" && NoColon(Digest(s)) {
      EscapedNoColon(s);
    }
    forall m, n | Unary(m) == Unary(n) ensures m == n {
      assert |Unary(m)| == |Unary(n)|;
    }
  }

  /** The compiler reads the source only. */
  lemma CopierReads(w: World, p: Prog, files: Files)
    requires w.compile == Copier && Compiled(p.lang) && OneDocument(p.code)
    ensures BuildIn(w, p, files) == FreshBuild(w, p)
    ensures p.lang == "c" || p.lang == "java" ==> FreshBuild(w, p) == Built(map[Primary(p.lang) := p.code])
  {
    OneDocumentWritten(p.code);
    assert (p.code + "\n")[..|p.code|] == p.code;
  }

  /** The assumptions on the surroundings can be met. */
  lemma WorldIsOk(total: nat, key: string, stack: seq<nat>, second: nat, defaultTimeout: nat, time: nat)
    requires key in PoolKeys()
    ensures WorldOk(Small(total, key, stack, second, defaultTimeout, time))
  {
    hide PoolKeys, OneDocument, FreshBuild, BuildIn;
    var w := Small(total, key, stack, second, defaultTimeout, time);
    DigestsTell(w);
    forall p: Prog, files: Files | Compiled(p.lang) && OneDocument(p.code)
      ensures BuildIn(w, p, files) == FreshBuild(w, p)
    {
      CopierReads(w, p, files);
    }
    forall p: Prog | p.lang in ["c", "cpp"] && Runs(w, p) ensures Program(w, p).Keys == {Primary(p.lang)} {
      CopierMakes(w, p);
    }
  }

  lemma CopierMakes(w: World, p: Prog)
    requires w.compile == Copier && Compiled(p.lang) && Runs(w, p)
    ensures Program(w, p).Keys == {Primary(p.lang)}
  {
  }

  // ---------------------------------------------------------------- the start

  /** Every container is empty and in the pool. */
  function Rest(total: nat, key: string, stack: seq<nat>): State {
    State(Custody(total, map k | k in PoolKeys() :: if k == key then stack else [], map[], {}, map[], [],
                  map c | c in Elems(stack) :: InPool),
          map c | c in Elems(stack) :: map[], map[], [], {})
  }

  lemma RestStarts(total: nat, key: string, stack: seq<nat>, second: nat, defaultTimeout: nat, time: nat)
    requires key in PoolKeys() && Distinct(stack)
    ensures Init(Small(total, key, stack, second, defaultTimeout, time), Rest(total, key, stack))
  {
    hide PoolKeys;
    var w, s := Small(total, key, stack, second, defaultTimeout, time), Rest(total, key, stack);
    assert Shelved(s.cu.pool, w.home);
    StartsEngine(w, s.cu.pool, s.files);
    assert s.cu.place == (map c | c in w.home :: InPool);
  }

  lemma KeysPooled()
    ensures "python:3.9" in PoolKeys() && "c:11" in PoolKeys() && "cpp:11" in PoolKeys()
    ensures "java:java-slim-executor" in PoolKeys()
  {
    assert PoolKey(PAIRS[2].0, PAIRS[2].1) == "java:java-slim-executor";
    assert PoolKey(PAIRS[0].0, PAIRS[0].1) == "python:3.9";
    assert PoolKey(PAIRS[4].0, PAIRS[4].1) == "c:11";
    assert PoolKey(PAIRS[5].0, PAIRS[5].1) == "cpp:11";
  }
}
