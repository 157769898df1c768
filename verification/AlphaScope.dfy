/** Propagation of alpha allow-lists through the pipe graph. */
module AlphaScope {
  import opened Sets

  type Id = string
  type Lists = map<Id, seq<Id>>

  /** `allow` lists the alphas wired to a pipe; `children` and `downstream` list
      the pipes its scope flows to. */
  datatype Graph = Graph(allow: Lists, children: Lists, downstream: Lists)

  function At(m: Lists, p: Id): seq<Id> { if p in m then m[p] else [] }

  ghost predicate Edge(g: Graph, a: Id, b: Id) { b in At(g.children, a) || b in At(g.downstream, a) }

  /** A path of scope-carrying edges. */
  ghost predicate Path(g: Graph, path: seq<Id>) {
    path != [] && forall i :: 0 <= i < |path| - 1 ==> Edge(g, path[i], path[i + 1])
  }

  ghost predicate Reaches(g: Graph, a: Id, b: Id) {
    exists path :: Path(g, path) && path[0] == a && path[|path| - 1] == b
  }

  /** The specification: wired to some pipe that reaches this one. */
  ghost predicate InScope(g: Graph, pipe: Id, alpha: Id) {
    exists origin :: alpha in At(g.allow, origin) && Reaches(g, origin, pipe)
  }

  lemma ReachesSelf(g: Graph, a: Id)
    ensures Reaches(g, a, a)
  {
    assert Path(g, [a]);
  }

  lemma ReachesFurther(g: Graph, a: Id, b: Id, c: Id)
    requires Reaches(g, a, b) && Edge(g, b, c)
    ensures Reaches(g, a, c)
  {
    var path :| Path(g, path) && path[0] == a && path[|path| - 1] == b;
    var longer := path + [c];
    forall i | 0 <= i < |longer| - 1 ensures Edge(g, longer[i], longer[i + 1]) {
      if i < |path| - 1 { assert Edge(g, path[i], path[i + 1]); }
    }
    assert Path(g, longer);
  }

  lemma ScopeFlows(g: Graph, a: Id, b: Id, alpha: Id)
    requires InScope(g, a, alpha) && Edge(g, a, b)
    ensures InScope(g, b, alpha)
  {
    var origin :| alpha in At(g.allow, origin) && Reaches(g, origin, a);
    ReachesFurther(g, origin, a, b);
  }

  // ----- what the loop keeps -----

  ghost predicate Sound(g: Graph, inherited: Lists) {
    forall p, alpha :: p in inherited && alpha in inherited[p] ==> InScope(g, p, alpha)
  }

  /** Nothing a pipe had is lost. */
  ghost predicate Grows(before: Lists, after: Lists) {
    forall p, alpha :: alpha in At(before, p) ==> alpha in At(after, p)
  }

  ghost predicate Closed(inherited: Lists, a: Id, b: Id) {
    forall alpha :: alpha in At(inherited, a) ==> alpha in At(inherited, b)
  }

  ghost predicate ClosedFrom(g: Graph, inherited: Lists, a: Id) {
    forall b :: Edge(g, a, b) ==> Closed(inherited, a, b)
  }

  /** A sound table that is closed under every edge holds exactly the scopes. */
  lemma FixpointIsScope(g: Graph, inherited: Lists, pipe: Id, alpha: Id)
    requires Sound(g, inherited) && Grows(g.allow, inherited)
    requires forall a, b :: Edge(g, a, b) ==> Closed(inherited, a, b)
    ensures alpha in At(inherited, pipe) <==> InScope(g, pipe, alpha)
  {
    if InScope(g, pipe, alpha) {
      var origin :| alpha in At(g.allow, origin) && Reaches(g, origin, pipe);
      var path :| Path(g, path) && path[0] == origin && path[|path| - 1] == pipe;
      CarriedAlong(g, inherited, path, alpha);
    }
  }

  lemma {:induction false} CarriedAlong(g: Graph, inherited: Lists, path: seq<Id>, alpha: Id)
    requires Path(g, path) && alpha in At(inherited, path[0])
    requires forall a, b :: Edge(g, a, b) ==> Closed(inherited, a, b)
    ensures alpha in At(inherited, path[|path| - 1])
    decreases |path|
  {
    if |path| > 1 {
      var n := |path| - 1;
      forall i | 0 <= i < n - 1 ensures Edge(g, path[..n][i], path[..n][i + 1]) { assert Edge(g, path[i], path[i + 1]); }
      CarriedAlong(g, inherited, path[..n], alpha);
      assert Edge(g, path[n - 1], path[n]);
    }
  }

  /** Appends what is missing; the length tells whether anything was. */
  method Merge(entry: seq<Id>, parent: seq<Id>) returns (merged: seq<Id>)
    ensures forall alpha :: alpha in merged <==> alpha in entry || alpha in parent
    ensures |merged| == |entry| <==> forall alpha :: alpha in parent ==> alpha in entry
    ensures |merged| == |entry| ==> merged == entry
  {
    merged := entry;
    for i := 0 to |parent|
      invariant entry <= merged
      invariant forall alpha :: alpha in merged <==> alpha in entry || alpha in parent[..i]
      invariant |merged| == |entry| <==> forall alpha :: alpha in parent[..i] ==> alpha in entry
    {
      assert parent[..i + 1] == parent[..i] + [parent[i]];
      if parent[i] !in merged { merged := merged + [parent[i]]; }
    }
    assert parent[..|parent|] == parent;
  }

  ghost predicate Adds(before: Lists, after: Lists) {
    exists p, alpha :: alpha in At(after, p) && alpha !in At(before, p)
  }

  /** One parent's scope pushed to a list of pipes. */
  method PushAll(ghost g: Graph, inherited: Lists, targets: seq<Id>, parent: seq<Id>, ghost source: Id)
    returns (after: Lists, changed: bool)
    requires Sound(g, inherited)
    requires forall alpha :: alpha in parent ==> InScope(g, source, alpha)
    requires forall t :: t in targets ==> Edge(g, source, t)
    ensures Sound(g, after) && Grows(inherited, after)
    ensures changed <==> Adds(inherited, after)
    ensures forall t, alpha :: t in targets && alpha in parent ==> alpha in At(after, t)
  {
    after, changed := inherited, false;
    for i := 0 to |targets|
      invariant Sound(g, after) && Grows(inherited, after)
      invariant changed <==> Adds(inherited, after)
      invariant forall k, alpha :: 0 <= k < i && alpha in parent ==> alpha in At(after, targets[k])
    {
      var t := targets[i];
      var entry := At(after, t);
      var merged := Merge(entry, parent);
      forall alpha | alpha in merged ensures InScope(g, t, alpha) {
        if alpha in parent { ScopeFlows(g, source, t, alpha); }
      }
      Entered(inherited, after, t, merged, changed);
      after := after[t := merged];
      if |merged| != |entry| { changed := true; }
    }
  }

  lemma Entered(start: Lists, before: Lists, t: Id, merged: seq<Id>, changed: bool)
    requires Grows(start, before) && (changed <==> Adds(start, before))
    requires forall alpha :: alpha in At(before, t) ==> alpha in merged
    ensures var after := before[t := merged];
            && Grows(before, after) && Grows(start, after)
            && ((exists alpha :: alpha in merged && alpha !in At(before, t)) || changed <==> Adds(start, after))
  {
    var after := before[t := merged];
    if alpha :| alpha in merged && alpha !in At(before, t) {
      assert alpha in At(after, t) && alpha !in At(start, t);
    }
    if changed {
      var p, alpha :| alpha in At(before, p) && alpha !in At(start, p);
      assert alpha in At(after, p);
    }
    if Adds(start, after) && !(exists alpha :: alpha in merged && alpha !in At(before, t)) {
      var p, alpha :| alpha in At(after, p) && alpha !in At(start, p);
      assert alpha in At(before, p);
    }
  }

  lemma AddsChain(a: Lists, b: Lists, c: Lists)
    requires Grows(a, b) && Grows(b, c)
    ensures Grows(a, c) && (Adds(a, b) || Adds(b, c) <==> Adds(a, c))
  {
    if Adds(a, b) {
      var p, alpha :| alpha in At(b, p) && alpha !in At(a, p);
      assert alpha in At(c, p);
    }
    if Adds(b, c) {
      var p, alpha :| alpha in At(c, p) && alpha !in At(b, p);
      assert alpha !in At(a, p);
    }
    if Adds(a, c) && !Adds(a, b) {
      var p, alpha :| alpha in At(c, p) && alpha !in At(a, p);
      assert alpha !in At(b, p);
    }
  }

  /** One pipe of a round: its scope goes to its children, then downstream. */
  method PushFrom(g: Graph, inherited: Lists, pipe: Id) returns (after: Lists, changed: bool)
    requires Sound(g, inherited)
    ensures Sound(g, after) && Grows(inherited, after)
    ensures changed <==> Adds(inherited, after)
    ensures forall b, alpha :: Edge(g, pipe, b) && alpha in At(inherited, pipe) ==> alpha in At(after, b)
  {
    if pipe !in inherited { return inherited, false; }
    var parent := inherited[pipe];
    var toChildren, downChanged;
    toChildren, changed := PushAll(g, inherited, At(g.children, pipe), parent, pipe);
    after, downChanged := PushAll(g, toChildren, At(g.downstream, pipe), parent, pipe);
    AddsChain(inherited, toChildren, after);
    changed := changed || downChanged;
  }

  lemma ProcessedPipe(g: Graph, start: Lists, before: Lists, after: Lists, pipe: Id)
    requires Grows(start, before) && !Adds(start, after)
    requires forall b, alpha :: Edge(g, pipe, b) && alpha in At(before, pipe) ==> alpha in At(after, b)
    ensures ClosedFrom(g, start, pipe)
  {
    forall b | Edge(g, pipe, b) ensures Closed(start, pipe, b) {
      forall alpha | alpha in At(start, pipe) ensures alpha in At(start, b) { assert alpha in At(after, b); }
    }
  }

  /** One round over all pipes, in whatever order the hash set yields them. */
  method Round(g: Graph, start: Lists) returns (after: Lists, changed: bool)
    requires Sound(g, start)
    ensures Sound(g, after) && Grows(start, after)
    ensures changed <==> Adds(start, after)
    ensures !changed ==> forall a, b :: Edge(g, a, b) ==> Closed(after, a, b)
  {
    after, changed := start, false;
    var pipes := start.Keys + g.children.Keys + g.downstream.Keys;
    ghost var all := pipes;
    while pipes != {}
      invariant pipes <= all && Sound(g, after) && Grows(start, after)
      invariant changed <==> Adds(start, after)
      invariant !changed ==> forall a :: a in all - pipes ==> ClosedFrom(g, start, a)
      decreases |pipes|
    {
      var pipe :| pipe in pipes;
      var next, more := PushFrom(g, after, pipe);
      AddsChain(start, after, next);
      if !(changed || more) { ProcessedPipe(g, start, after, next, pipe); }
      after, changed, pipes := next, changed || more, pipes - {pipe};
    }
    if !changed { RoundIsClosed(g, start, after, all); }
  }

  lemma RoundIsClosed(g: Graph, start: Lists, after: Lists, all: set<Id>)
    requires Grows(start, after) && !Adds(start, after) && g.children.Keys + g.downstream.Keys <= all
    requires forall a :: a in all ==> ClosedFrom(g, start, a)
    ensures forall a, b :: Edge(g, a, b) ==> Closed(after, a, b)
  {
    forall a, b | Edge(g, a, b) ensures Closed(after, a, b) {
      assert a in all && ClosedFrom(g, start, a) && Closed(start, a, b);
    }
  }

  // ----- termination -----

  ghost function Targets(m: Lists): set<Id> { set a, b | a in m && b in m[a] :: b }

  ghost function Pipes(g: Graph): set<Id> { g.allow.Keys + Targets(g.children) + Targets(g.downstream) }

  ghost function Pairs(ps: set<Id>, alphas: set<Id>): set<(Id, Id)> { set p, a | p in ps && a in alphas :: (p, a) }

  ghost function Have(m: Lists): set<(Id, Id)> { set p, a | p in m && a in m[p] :: (p, a) }

  ghost function Missing(g: Graph, m: Lists): set<(Id, Id)> { Pairs(Pipes(g), Targets(g.allow)) - Have(m) }

  lemma ScopeIsBounded(g: Graph, p: Id, alpha: Id)
    requires InScope(g, p, alpha)
    ensures p in Pipes(g) && alpha in Targets(g.allow)
  {
    var origin :| alpha in At(g.allow, origin) && Reaches(g, origin, p);
    var path :| Path(g, path) && path[0] == origin && path[|path| - 1] == p;
    if |path| > 1 { assert Edge(g, path[|path| - 2], path[|path| - 2 + 1]); }
  }

  lemma HaveGrows(before: Lists, after: Lists)
    requires Grows(before, after)
    ensures Have(before) <= Have(after)
  {
    forall pair | pair in Have(before) ensures pair in Have(after) { assert pair.1 in At(before, pair.0); }
  }

  /** Every change uses up one of finitely many (pipe, alpha) pairs. */
  lemma ChangeShrinks(g: Graph, before: Lists, after: Lists)
    requires Sound(g, after) && Grows(before, after) && Adds(before, after)
    ensures |Missing(g, after)| < |Missing(g, before)|
  {
    var p, alpha :| alpha in At(after, p) && alpha !in At(before, p);
    ScopeIsBounded(g, p, alpha);
    HaveGrows(before, after);
    assert (p, alpha) in Missing(g, before) && (p, alpha) in Have(after);
    Smaller(Missing(g, after), Missing(g, before), (p, alpha));
  }

  lemma Smaller<T>(a: set<T>, b: set<T>, x: T)
    requires a <= b && x in b && x !in a
    ensures |a| < |b|
  {
    assert a <= b - {x};
    SubsetSize(a, b - {x});
  }

  lemma WiredIsInScope(g: Graph)
    ensures Sound(g, g.allow)
  {
    forall p, alpha | p in g.allow && alpha in g.allow[p] ensures InScope(g, p, alpha) { ReachesSelf(g, p); }
  }

  /** Wired alphas are in scope, and scope goes to children and downstream. */
  lemma ScopeIsInherited(g: Graph, p: Id, q: Id, alpha: Id)
    ensures p in g.allow && alpha in g.allow[p] ==> InScope(g, p, alpha)
    ensures p in g.children && q in g.children[p] && InScope(g, p, alpha) ==> InScope(g, q, alpha)
    ensures p in g.downstream && q in g.downstream[p] && InScope(g, p, alpha) ==> InScope(g, q, alpha)
  {
    if p in g.allow && alpha in g.allow[p] { WiredIsInScope(g); }
    if InScope(g, p, alpha) && (q in At(g.children, p) || q in At(g.downstream, p)) { ScopeFlows(g, p, q, alpha); }
  }

  ghost predicate Passes(lists: Lists, table: Lists) {
    forall p, q :: p in lists && q in lists[p] ==> Closed(table, p, q)
  }

  /** And nothing more is: every table with these two properties holds all of it. */
  lemma ScopeIsLeast(g: Graph, table: Lists, pipe: Id, alpha: Id)
    requires forall p, a :: p in g.allow && a in g.allow[p] ==> a in At(table, p)
    requires Passes(g.children, table) && Passes(g.downstream, table) && InScope(g, pipe, alpha)
    ensures alpha in At(table, pipe)
  {
    var origin :| alpha in At(g.allow, origin) && Reaches(g, origin, pipe);
    var path :| Path(g, path) && path[0] == origin && path[|path| - 1] == pipe;
    CarriedAlong(g, table, path, alpha);
  }

  /** The while-changed loop ends on every graph, cycles included, with exactly
      the alphas in scope at every pipe. */
  method Propagate(g: Graph) returns (inherited: Lists)
    ensures forall pipe, alpha :: alpha in At(inherited, pipe) <==> InScope(g, pipe, alpha)
  {
    inherited := g.allow;
    WiredIsInScope(g);
    var changed := true;
    while changed
      invariant Sound(g, inherited) && Grows(g.allow, inherited)
      invariant !changed ==> forall a, b :: Edge(g, a, b) ==> Closed(inherited, a, b)
      decreases |Missing(g, inherited)|, changed
    {
      ghost var before := inherited;
      inherited, changed := Round(g, inherited);
      if changed { ChangeShrinks(g, before, inherited); } else { Unchanged(g, before, inherited); }
    }
    forall pipe, alpha ensures alpha in At(inherited, pipe) <==> InScope(g, pipe, alpha) {
      FixpointIsScope(g, inherited, pipe, alpha);
    }
  }

  lemma Unchanged(g: Graph, before: Lists, after: Lists)
    requires Grows(before, after)
    ensures |Missing(g, after)| <= |Missing(g, before)|
  {
    HaveGrows(before, after);
    SubsetSize(Missing(g, after), Missing(g, before));
  }
}
