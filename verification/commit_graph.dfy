/** A rig's history as a batch landing sees it: which commits each commit reaches, which of them are signed as a
    machine's work, and which mw itself and the batch's fixer made while it was made. */
module CommitGraph {

  type Commit = nat

  /** Every commit is numbered below `next`, so that `next` is always a new one. */
  datatype Graph = Graph(reach: map<Commit, set<Commit>>, signed: set<Commit>, ours: set<Commit>, fixed: set<Commit>,
                         next: Commit)

  /** A commit reaches itself, only known commits, and all that those reach. */
  predicate Valid(g: Graph) {
    && g.ours <= g.reach.Keys && g.fixed <= g.reach.Keys && g.ours !! g.fixed
    && (forall c :: c in g.reach ==> c < g.next && c in g.reach[c] && g.reach[c] <= g.reach.Keys)
    && (forall c, d :: c in g.reach && d in g.reach[c] ==> d in g.reach && g.reach[d] <= g.reach[c])
  }

  /** g' is g with commits added, each by mw or by the fixer: history is never rewritten, only grown. */
  predicate Extends(g: Graph, g': Graph) {
    && g.reach.Keys <= g'.reach.Keys
    && (forall c :: c in g.reach ==> g'.reach[c] == g.reach[c])
    && (forall c :: c in g.reach ==> (c in g.signed <==> c in g'.signed))
    && (forall c :: c in g.reach ==> (c in g.ours <==> c in g'.ours))
    && (forall c :: c in g.reach ==> (c in g.fixed <==> c in g'.fixed))
    && (forall c :: c in g'.reach && c !in g.reach ==> c in g'.ours || c in g'.fixed)
  }

  /** c contains all of d. */
  predicate Contains(g: Graph, c: Commit, d: Commit) {
    c in g.reach && d in g.reach && g.reach[d] <= g.reach[c]
  }

  /** How many commits `branch` has that `base` does not. */
  function Ahead(g: Graph, branch: Commit, base: Commit): nat
    requires branch in g.reach && base in g.reach
  {
    |g.reach[branch] - g.reach[base]|
  }

  /** A commit beyond base is signed as a machine's work. */
  predicate SignedBeyond(g: Graph, c: Commit, base: Commit)
    requires c in g.reach && base in g.reach
  {
    exists d :: d in g.reach[c] - g.reach[base] && d in g.signed
  }

  /** Of what c adds to base, only commits mw made itself may be signed. */
  predicate Clean(g: Graph, base: Commit, c: Commit) {
    && base in g.reach && c in g.reach
    && forall d :: d in g.reach[c] && d !in g.reach[base] && d in g.signed ==> d in g.ours
  }

  /** A new commit of mw's own on top of `parents`. */
  function Commit1(g: Graph, parents: set<Commit>): Graph {
    Graph(g.reach[g.next := parents + {g.next}], g.signed, g.ours + {g.next}, g.fixed, g.next + 1)
  }

  lemma AheadZeroIsContained(g: Graph, branch: Commit, base: Commit)
    requires branch in g.reach && base in g.reach
    ensures Ahead(g, branch, base) == 0 <==> Contains(g, base, branch)
  {
    var beyond := g.reach[branch] - g.reach[base];
    if beyond == {} {
      forall c | c in g.reach[branch] ensures c in g.reach[base] {
        assert c !in beyond;
      }
    } else {
      var c :| c in beyond;
      assert c in g.reach[branch] && c !in g.reach[base];
    }
  }

  /** A commit of mw's own is new, contains its parents, and adds nothing signed but itself. */
  lemma OwnCommit(g: Graph, parents: set<Commit>)
    requires Valid(g) && parents <= g.reach.Keys
    requires forall c :: c in parents ==> g.reach[c] <= parents
    ensures var g' := Commit1(g, parents);
            Valid(g') && Extends(g, g') && g.next !in g.reach && g'.reach[g.next] == parents + {g.next} &&
            forall c :: c in parents ==> Contains(g', g.next, c)
  {
    var g' := Commit1(g, parents);
    forall c, d | c in g'.reach && d in g'.reach[c]
      ensures d in g'.reach && g'.reach[d] <= g'.reach[c]
    {
    }
  }

  lemma UnsignedIsClean(g: Graph, base: Commit, c: Commit)
    requires base in g.reach && c in g.reach && !SignedBeyond(g, c, base)
    ensures Clean(g, base, c)
  {
    forall d | d in g.reach[c] && d !in g.reach[base] ensures d !in g.signed {
      assert d in g.reach[c] - g.reach[base];
    }
  }

  /** A merge of mw's keeps a clean batch clean. */
  lemma MergeKeepsClean(g: Graph, base: Commit, head: Commit, tip: Commit)
    requires Valid(g) && Clean(g, base, head) && tip in g.reach && !SignedBeyond(g, tip, base)
    ensures Clean(Commit1(g, g.reach[head] + g.reach[tip]), base, g.next)
  {
    OwnCommit(g, g.reach[head] + g.reach[tip]);
    UnsignedIsClean(g, base, tip);
  }

  /** Growing the graph changes nothing of what an old commit contains. */
  lemma GrowthKeeps(g: Graph, g': Graph, base: Commit, c: Commit, d: Commit)
    requires Valid(g) && Valid(g') && Extends(g, g')
    ensures Contains(g, c, d) ==> Contains(g', c, d)
    ensures Clean(g, base, c) ==> Clean(g', base, c)
  {
  }

  lemma GrownBase(g: Graph, g': Graph, base: Commit)
    requires Extends(g, g') && base in g.reach
    ensures base in g'.reach
  {
  }

  lemma GrowthIsTransitive(g: Graph, g': Graph, g'': Graph)
    ensures Extends(g, g)
    ensures Extends(g, g') && Extends(g', g'') ==> Extends(g, g'')
  {
  }

  lemma ContainsTransitive(g: Graph, a: Commit, b: Commit, c: Commit)
    requires Contains(g, a, b) && Contains(g, b, c)
    ensures Contains(g, a, c)
  {
  }

  /** No branch that was there when the batch was begun, and nothing its fixer made, brings a signed commit in: one
      that is signed among what c adds to base is a commit mw itself made since. */
  ghost predicate OthersUnsigned(was: Graph, g: Graph, base: Commit, c: Commit) {
    && base in g.reach && c in g.reach
    && (forall d :: d in g.reach[c] && d !in g.reach[base] && d in g.signed ==> d in g.ours && d !in was.reach)
    && (forall d :: d in g.fixed && d in g.reach[c] && d !in g.reach[base] ==> d !in g.signed)
    && (forall tip, d :: tip in was.reach && Contains(g, c, tip) && d in g.reach[tip] && d !in g.reach[base] ==> d !in g.signed)
  }

  lemma CleanIsOthersUnsigned(was: Graph, g: Graph, base: Commit, c: Commit)
    requires Valid(was) && Valid(g) && Extends(was, g) && was.ours == {}
    requires Clean(g, base, c)
    ensures OthersUnsigned(was, g, base, c)
  {
    forall tip, d | tip in was.reach && Contains(g, c, tip) && d in g.reach[tip] && d !in g.reach[base]
      ensures d !in g.signed
    {
      assert d in was.reach[tip] && d in was.reach;
    }
  }
}
