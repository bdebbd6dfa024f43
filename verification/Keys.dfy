/**
 * The keys of the cache. A result key joins five fields by colons, an artifact key three.
 */
module Keys {
  import opened Options
  import opened Text
  import opened Platform

  /** What one result key stands for. */
  datatype Origin = Origin(prog: Prog, limit: nat, stdin: Option<string>)

  function StdinField(w: World, stdin: Option<string>): string {
    match stdin case None => "" case Some(s) => w.sha(s)
  }

  function ResultKey(w: World, p: Prog, limit: nat, stdin: Option<string>): string {
    "evalx:exec:" + (p.lang + ":" + p.ver) + ":" + w.show(limit) + ":" + w.sha(p.code) + ":" + StdinField(w, stdin)
  }

  function ArtifactKey(w: World, p: Prog): string {
    "evalx:artifact:" + (p.lang + ":" + p.ver) + ":" + w.sha(p.code)
  }

  function KeyOfOrigin(w: World, o: Origin): string {
    ResultKey(w, o.prog, o.limit, o.stdin)
  }

  lemma DropPrefix(prefix: string, a: string, b: string)
    requires prefix + a == prefix + b
    ensures a == b
  {
    assert a == (prefix + a)[|prefix|..];
    assert b == (prefix + b)[|prefix|..];
  }

  lemma StdinFieldUnique(w: World, x: Option<string>, y: Option<string>)
    requires Digests(w) && StdinField(w, x) == StdinField(w, y)
    ensures x == y
  {
    if x.Some? && y.Some? {
      assert w.sha(x.value) == w.sha(y.value);
    }
  }

  /**
   * A key written for a colon-free language and version is no other lookup's key, whatever raw
   * language and version texts the lookup uses. In particular absent stdin is not empty stdin.
   */
  lemma ResultKeyUnique(w: World, o: Origin, q: Prog, limit: nat, stdin: Option<string>)
    requires Digests(w) && NoColon(o.prog.lang) && NoColon(o.prog.ver)
    requires KeyOfOrigin(w, o) == ResultKey(w, q, limit, stdin)
    ensures o == Origin(q, limit, stdin)
  {
    var p := o.prog;
    var a1, b1 := "evalx:exec:" + (p.lang + ":" + p.ver), "evalx:exec:" + (q.lang + ":" + q.ver);
    var a2, b2 := a1 + ":" + w.show(o.limit), b1 + ":" + w.show(limit);
    var a3, b3 := a2 + ":" + w.sha(p.code), b2 + ":" + w.sha(q.code);
    LastField(a3, StdinField(w, o.stdin), b3, StdinField(w, stdin));
    LastField(a2, w.sha(p.code), b2, w.sha(q.code));
    LastField(a1, w.show(o.limit), b1, w.show(limit));
    DropPrefix("evalx:exec:", p.lang + ":" + p.ver, q.lang + ":" + q.ver);
    OnlyColon(p.lang, p.ver, q.lang, q.ver);
    StdinFieldUnique(w, o.stdin, stdin);
  }

  lemma ArtifactKeyUnique(w: World, p: Prog, q: Prog)
    requires Digests(w) && NoColon(p.lang) && NoColon(p.ver)
    requires ArtifactKey(w, p) == ArtifactKey(w, q)
    ensures p == q
  {
    var a, b := "evalx:artifact:" + (p.lang + ":" + p.ver), "evalx:artifact:" + (q.lang + ":" + q.ver);
    LastField(a, w.sha(p.code), b, w.sha(q.code));
    DropPrefix("evalx:artifact:", p.lang + ":" + p.ver, q.lang + ":" + q.ver);
    OnlyColon(p.lang, p.ver, q.lang, q.ver);
  }

  /** Results and artifacts never share a key, though one store holds both. */
  lemma KeysApart(w: World, p: Prog, limit: nat, stdin: Option<string>, q: Prog)
    ensures ResultKey(w, p, limit, stdin) != ArtifactKey(w, q)
  {
    var a, b := ResultKey(w, p, limit, stdin), ArtifactKey(w, q);
    assert a[6] == 'e' && b[6] == 'a';
  }
}
