/**
 * createPages from gatsby-node.js: for each queried post, in order, a
 * canonical page, an AMP page unless the post sets `include_KaTeX: true`,
 * and a permanent redirect. The calls to Gatsby's `createPage` and
 * `createRedirect` actions are modelled as the instructions they issue.
 *
 * The output is defined over the sequence of the posts' contexts, so that
 * the facts about its shape are proved once for any contexts and then
 * read for the contexts the builder actually computes, `Contexts(posts)`.
 */
module PageBuilder {
  import opened Wrappers
  import opened Posts
  import opened PageContext

  /** One action call: createPage with the blog-post or the AMP template, or createRedirect. */
  datatype Instruction =
    | Canonical(path: string, context: Context)
    | Amp(path: string, context: Context)
    | Redirect(fromPath: string, toPath: string, isPermanent: bool)

  datatype Kind = CanonicalKind | AmpKind | RedirectKind

  function KindOf(ins: Instruction): Kind
  {
    match ins
    case Canonical(_, _) => CanonicalKind
    case Amp(_, _) => AmpKind
    case Redirect(_, _, _) => RedirectKind
  }

  /** The instructions of one kind, in the order they were issued. */
  function OfKind(out: seq<Instruction>, k: Kind): seq<Instruction>
    decreases |out|
  {
    if |out| == 0 then []
    else (if KindOf(out[0]) == k then [out[0]] else []) + OfKind(out[1..], k)
  }

  /** The AMP page is skipped only when `include_KaTeX` is exactly `true`. */
  predicate WantsAmp(p: Post)
  {
    p.includeKaTeX != Some(true)
  }

  function AmpPath(slug: string): string
  {
    slug + "amp/"
  }

  /** The redirect issued for a post: from `String(redirect_from)` to its slug, permanent. */
  function RedirectFor(p: Post): Instruction
  {
    Redirect(ToJsString(p.redirectFrom), p.slug, true)
  }

  /** What the loop body issues for post `p`, whose context is `ctx`. */
  function PostInstructions(p: Post, ctx: Context): seq<Instruction>
  {
    [Canonical(p.slug, ctx)]
      + (if WantsAmp(p) then [Amp(AmpPath(p.slug), ctx)] else [])
      + [RedirectFor(p)]
  }

  /** The context of every post, in post order. */
  function Contexts(posts: seq<Post>): seq<Context>
  {
    seq(|posts|, i requires 0 <= i < |posts| => ContextAt(posts, i))
  }

  /** What the loop has issued after its first `n` iterations, post i having context ctxs[i]. */
  function Issued(posts: seq<Post>, ctxs: seq<Context>, n: nat): seq<Instruction>
    requires n <= |posts| == |ctxs|
  {
    if n == 0 then [] else Issued(posts, ctxs, n - 1) + PostInstructions(posts[n - 1], ctxs[n - 1])
  }

  /** Everything createPages issues for `posts`. */
  function PageInstructions(posts: seq<Post>): seq<Instruction>
  {
    Issued(posts, Contexts(posts), |posts|)
  }

  /** Where the instructions of the post at position `index` start. */
  function Offset(posts: seq<Post>, index: nat): nat
    requires index <= |posts|
  {
    |Issued(posts, Contexts(posts), index)|
  }

  /** The number of posts among the first `n` that get an AMP page. */
  function AmpCount(posts: seq<Post>, n: nat): nat
    requires n <= |posts|
  {
    if n == 0 then 0 else AmpCount(posts, n - 1) + (if WantsAmp(posts[n - 1]) then 1 else 0)
  }

  /** The canonical pages of the first `n` posts, in post order. */
  function CanonicalPagesOf(posts: seq<Post>, ctxs: seq<Context>, n: nat): seq<Instruction>
    requires n <= |posts| == |ctxs|
  {
    if n == 0 then [] else CanonicalPagesOf(posts, ctxs, n - 1) + [Canonical(posts[n - 1].slug, ctxs[n - 1])]
  }

  /** The AMP page of one post, if it gets one. */
  function AmpPageOf(p: Post, ctx: Context): seq<Instruction>
  {
    if WantsAmp(p) then [Amp(AmpPath(p.slug), ctx)] else []
  }

  /** The AMP pages of the first `n` posts that want one, in post order. */
  function AmpPagesOf(posts: seq<Post>, ctxs: seq<Context>, n: nat): seq<Instruction>
    requires n <= |posts| == |ctxs|
  {
    if n == 0 then [] else AmpPagesOf(posts, ctxs, n - 1) + AmpPageOf(posts[n - 1], ctxs[n - 1])
  }

  /** The redirects of the first `n` posts, in post order. */
  function RedirectsOf(posts: seq<Post>, n: nat): seq<Instruction>
    requires n <= |posts|
  {
    if n == 0 then [] else RedirectsOf(posts, n - 1) + [RedirectFor(posts[n - 1])]
  }

  /**
   * The `posts.forEach` loop of createPages. The result is the sequence of
   * action calls in the order the loop makes them.
   */
  method CreatePages(posts: seq<Post>) returns (actions: seq<Instruction>)
    ensures actions == PageInstructions(posts)
    ensures |actions| == 2 * |posts| + AmpCount(posts, |posts|)
  {
    ghost var contexts := Contexts(posts);
    actions := [];
    var index := 0;
    while index < |posts|
      invariant index <= |posts|
      invariant actions == Issued(posts, contexts, index)
    {
      var node := posts[index];
      var context := ContextAt(posts, index);
      actions := actions + [Canonical(node.slug, context)];
      if node.includeKaTeX != Some(true) {
        actions := actions + [Amp(node.slug + "amp/", context)];
      }
      actions := actions + [Redirect(ToJsString(node.redirectFrom), node.slug, true)];
      index := index + 1;
    }
    IssuedLength(posts, contexts, |posts|);
  }

  /** Each post issues two instructions, plus one when it gets an AMP page. */
  lemma {:induction false} IssuedLength(posts: seq<Post>, ctxs: seq<Context>, n: nat)
    requires n <= |posts| == |ctxs|
    ensures |Issued(posts, ctxs, n)| == 2 * n + AmpCount(posts, n)
  {
    if n > 0 {
      IssuedLength(posts, ctxs, n - 1);
    }
  }

  /** Later iterations only append: what the first m issued stays a prefix. */
  lemma {:induction false} IssuedPrefix(posts: seq<Post>, ctxs: seq<Context>, m: nat, n: nat)
    requires m <= n <= |posts| == |ctxs|
    ensures Issued(posts, ctxs, m) <= Issued(posts, ctxs, n)
    decreases n - m
  {
    if m < n {
      IssuedPrefix(posts, ctxs, m, n - 1);
    }
  }

  /**
   * The output follows the input order: the post at `index` owns the block
   * from Offset(index) to Offset(index + 1), which holds its canonical page,
   * then its AMP page exactly when `include_KaTeX` is not `true` (with the
   * same context), then its permanent redirect to its slug.
   */
  lemma EmittedForPost(posts: seq<Post>, index: nat)
    requires index < |posts|
    ensures Offset(posts, index + 1) == Offset(posts, index) + (if WantsAmp(posts[index]) then 3 else 2)
    ensures Offset(posts, index + 1) <= |PageInstructions(posts)|
    ensures PageInstructions(posts)[Offset(posts, index)]
      == Canonical(posts[index].slug, ContextAt(posts, index))
    ensures WantsAmp(posts[index]) ==>
      PageInstructions(posts)[Offset(posts, index) + 1]
        == Amp(posts[index].slug + "amp/", ContextAt(posts, index))
    ensures PageInstructions(posts)[Offset(posts, index + 1) - 1]
      == Redirect(ToJsString(posts[index].redirectFrom), posts[index].slug, true)
  {
    var ctxs := Contexts(posts);
    IssuedPrefix(posts, ctxs, index + 1, |posts|);
    var block := PostInstructions(posts[index], ctxs[index]);
    var k := Offset(posts, index);
    var out := PageInstructions(posts);
    var upTo := Issued(posts, ctxs, index + 1);
    assert upTo == Issued(posts, ctxs, index) + block;
    assert out[k] == upTo[k] == block[0];
    assert out[k + |block| - 1] == upTo[k + |block| - 1] == block[|block| - 1];
    if WantsAmp(posts[index]) {
      assert out[k + 1] == upTo[k + 1] == block[1];
    }
  }

  /** Filtering by kind distributes over concatenation. */
  lemma {:induction false} OfKindAppend(a: seq<Instruction>, b: seq<Instruction>, k: Kind)
    ensures OfKind(a + b, k) == OfKind(a, k) + OfKind(b, k)
    decreases |a|
  {
    if |a| == 0 {
      assert a + b == b;
    } else {
      assert (a + b)[0] == a[0];
      assert (a + b)[1..] == a[1..] + b;
      OfKindAppend(a[1..], b, k);
    }
  }

  /** Filtering a one-element sequence keeps the element exactly when it has kind `k`. */
  lemma OfKindSingle(x: Instruction, k: Kind)
    ensures OfKind([x], k) == if KindOf(x) == k then [x] else []
  {
  }

  /**
   * Each iteration adds, to the instructions of each kind, those of the
   * post's block: one canonical page, one redirect, and the AMP page if any.
   */
  lemma IssuedStep(posts: seq<Post>, ctxs: seq<Context>, n: nat)
    requires 0 < n <= |posts| == |ctxs|
    ensures OfKind(Issued(posts, ctxs, n), CanonicalKind)
      == OfKind(Issued(posts, ctxs, n - 1), CanonicalKind) + [Canonical(posts[n - 1].slug, ctxs[n - 1])]
    ensures OfKind(Issued(posts, ctxs, n), RedirectKind)
      == OfKind(Issued(posts, ctxs, n - 1), RedirectKind) + [RedirectFor(posts[n - 1])]
    ensures OfKind(Issued(posts, ctxs, n), AmpKind)
      == OfKind(Issued(posts, ctxs, n - 1), AmpKind) + AmpPageOf(posts[n - 1], ctxs[n - 1])
  {
    var before, block := Issued(posts, ctxs, n - 1), PostInstructions(posts[n - 1], ctxs[n - 1]);
    assert Issued(posts, ctxs, n) == before + block;
    KindsOfBlock(posts[n - 1], ctxs[n - 1]);
    OfKindAppend(before, block, CanonicalKind);
    OfKindAppend(before, block, RedirectKind);
    OfKindAppend(before, block, AmpKind);
  }

  /** Filtering a post's block filters its three parts in turn. */
  lemma BlockByParts(p: Post, ctx: Context, k: Kind)
    ensures OfKind(PostInstructions(p, ctx), k)
      == OfKind([Canonical(p.slug, ctx)], k) + OfKind(AmpPageOf(p, ctx), k) + OfKind([RedirectFor(p)], k)
  {
    var head, amps, last := [Canonical(p.slug, ctx)], AmpPageOf(p, ctx), [RedirectFor(p)];
    assert PostInstructions(p, ctx) == head + amps + last;
    OfKindAppend(head + amps, last, k);
    OfKindAppend(head, amps, k);
  }

  /** A post's block, split by kind. */
  lemma KindsOfBlock(p: Post, ctx: Context)
    ensures OfKind(PostInstructions(p, ctx), CanonicalKind) == [Canonical(p.slug, ctx)]
    ensures OfKind(PostInstructions(p, ctx), RedirectKind) == [RedirectFor(p)]
    ensures OfKind(PostInstructions(p, ctx), AmpKind) == AmpPageOf(p, ctx)
  {
    var canonical, amp, redirect := Canonical(p.slug, ctx), Amp(AmpPath(p.slug), ctx), RedirectFor(p);
    var none: seq<Instruction> := [];
    OfKindSingle(canonical, CanonicalKind);
    OfKindSingle(canonical, RedirectKind);
    OfKindSingle(canonical, AmpKind);
    OfKindSingle(redirect, CanonicalKind);
    OfKindSingle(redirect, RedirectKind);
    OfKindSingle(redirect, AmpKind);
    if WantsAmp(p) {
      OfKindSingle(amp, CanonicalKind);
      OfKindSingle(amp, RedirectKind);
      OfKindSingle(amp, AmpKind);
    } else {
      assert OfKind(none, CanonicalKind) == OfKind(none, RedirectKind) == OfKind(none, AmpKind) == [];
    }
    BlockByParts(p, ctx, CanonicalKind);
    BlockByParts(p, ctx, RedirectKind);
    BlockByParts(p, ctx, AmpKind);
  }

  /** Filtering the output for canonical pages gives the reference list. */
  lemma {:induction false} CanonicalsListed(posts: seq<Post>, ctxs: seq<Context>, n: nat)
    requires n <= |posts| == |ctxs|
    ensures OfKind(Issued(posts, ctxs, n), CanonicalKind) == CanonicalPagesOf(posts, ctxs, n)
  {
    if n > 0 {
      CanonicalsListed(posts, ctxs, n - 1);
      IssuedStep(posts, ctxs, n);
    }
  }

  /** The i-th listed canonical page belongs to post i. */
  lemma {:induction false} CanonicalPagesOfAt(posts: seq<Post>, ctxs: seq<Context>, n: nat)
    requires n <= |posts| == |ctxs|
    ensures |CanonicalPagesOf(posts, ctxs, n)| == n
    ensures forall i :: 0 <= i < n ==> CanonicalPagesOf(posts, ctxs, n)[i] == Canonical(posts[i].slug, ctxs[i])
  {
    if n > 0 {
      CanonicalPagesOfAt(posts, ctxs, n - 1);
    }
  }

  /**
   * Exactly one canonical page per post, in input order, each at the
   * post's slug and with the post's context.
   */
  lemma CanonicalPages(posts: seq<Post>)
    ensures |OfKind(PageInstructions(posts), CanonicalKind)| == |posts|
    ensures forall i :: 0 <= i < |posts| ==>
      OfKind(PageInstructions(posts), CanonicalKind)[i] == Canonical(posts[i].slug, ContextAt(posts, i))
  {
    CanonicalsListed(posts, Contexts(posts), |posts|);
    CanonicalPagesOfAt(posts, Contexts(posts), |posts|);
  }

  /** Filtering the output for redirects gives the reference list. */
  lemma {:induction false} RedirectsListed(posts: seq<Post>, ctxs: seq<Context>, n: nat)
    requires n <= |posts| == |ctxs|
    ensures OfKind(Issued(posts, ctxs, n), RedirectKind) == RedirectsOf(posts, n)
  {
    if n > 0 {
      RedirectsListed(posts, ctxs, n - 1);
      IssuedStep(posts, ctxs, n);
    }
  }

  /** The i-th listed redirect belongs to post i. */
  lemma {:induction false} RedirectsOfAt(posts: seq<Post>, n: nat)
    requires n <= |posts|
    ensures |RedirectsOf(posts, n)| == n
    ensures forall i :: 0 <= i < n ==> RedirectsOf(posts, n)[i] == RedirectFor(posts[i])
  {
    if n > 0 {
      RedirectsOfAt(posts, n - 1);
    }
  }

  /**
   * Exactly one permanent redirect per post, in input order, from
   * `String(redirect_from)` to the post's slug, whether or not
   * `redirect_from` is set.
   */
  lemma Redirects(posts: seq<Post>)
    ensures |OfKind(PageInstructions(posts), RedirectKind)| == |posts|
    ensures forall i :: 0 <= i < |posts| ==>
      OfKind(PageInstructions(posts), RedirectKind)[i]
        == Redirect(ToJsString(posts[i].redirectFrom), posts[i].slug, true)
  {
    RedirectsListed(posts, Contexts(posts), |posts|);
    RedirectsOfAt(posts, |posts|);
  }

  /** Filtering the output for AMP pages gives the reference list. */
  lemma {:induction false} AmpPagesListed(posts: seq<Post>, ctxs: seq<Context>, n: nat)
    requires n <= |posts| == |ctxs|
    ensures OfKind(Issued(posts, ctxs, n), AmpKind) == AmpPagesOf(posts, ctxs, n)
  {
    if n > 0 {
      AmpPagesListed(posts, ctxs, n - 1);
      IssuedStep(posts, ctxs, n);
    }
  }

  /** There is one listed AMP page per post that wants one. */
  lemma {:induction false} AmpPagesOfCount(posts: seq<Post>, ctxs: seq<Context>, n: nat)
    requires n <= |posts| == |ctxs|
    ensures |AmpPagesOf(posts, ctxs, n)| == AmpCount(posts, n)
  {
    if n > 0 {
      AmpPagesOfCount(posts, ctxs, n - 1);
    }
  }

  /**
   * The AMP pages among the output are, in post order, one per post whose
   * `include_KaTeX` is not `true`, each at `slug + "amp/"` with that post's
   * context; so there are as many as such posts.
   */
  lemma AmpPages(posts: seq<Post>)
    ensures OfKind(PageInstructions(posts), AmpKind) == AmpPagesOf(posts, Contexts(posts), |posts|)
    ensures |OfKind(PageInstructions(posts), AmpKind)| == AmpCount(posts, |posts|)
  {
    AmpPagesListed(posts, Contexts(posts), |posts|);
    AmpPagesOfCount(posts, Contexts(posts), |posts|);
  }

  /**
   * Two posts of series "S" followed by one outside any series, none
   * setting `include_KaTeX` or `redirect_from`: the middle post links both
   * neighbours and shares the cohort [/a, /b]; the last has no next post
   * and an empty cohort; three canonical pages, three AMP pages and three
   * redirects from "null" are issued.
   */
  lemma ThreePostScenario()
    ensures var a := Post("/a", "A", None, Null, Some("S"), None);
      var b := Post("/b", "B", None, Null, Some("S"), None);
      var c := Post("/c", "C", None, Null, None, None);
      var posts := [a, b, c];
      && ContextAt(posts, 1) == Context("/b", Some(a), Some(c), [a, b])
      && ContextAt(posts, 2) == Context("/c", Some(b), None, [])
      && PageInstructions(posts) == [
        Canonical("/a", ContextAt(posts, 0)), Amp("/aamp/", ContextAt(posts, 0)), Redirect("null", "/a", true),
        Canonical("/b", ContextAt(posts, 1)), Amp("/bamp/", ContextAt(posts, 1)), Redirect("null", "/b", true),
        Canonical("/c", ContextAt(posts, 2)), Amp("/camp/", ContextAt(posts, 2)), Redirect("null", "/c", true)]
  {
    var a := Post("/a", "A", None, Null, Some("S"), None);
    var b := Post("/b", "B", None, Null, Some("S"), None);
    var c := Post("/c", "C", None, Null, None, None);
    var posts := [a, b, c];
    var ctxs := Contexts(posts);
    assert SeriesFilter(posts, "S", 1) == [a];
    assert SeriesFilter(posts, "S", 2) == [a, b];
    assert SeriesMembers(posts, "S") == [a, b];
    var ca := Context("/a", None, Some(b), [a, b]);
    var cb := Context("/b", Some(a), Some(c), [a, b]);
    var cc := Context("/c", Some(b), None, []);
    assert ContextAt(posts, 0) == ca;
    assert ContextAt(posts, 1) == cb;
    assert ContextAt(posts, 2) == cc;
    assert ctxs == [ca, cb, cc];
    assert AmpPath("/a") == "/aamp/" && AmpPath("/b") == "/bamp/" && AmpPath("/c") == "/camp/";
    assert PostInstructions(a, ca) == [Canonical("/a", ca), Amp("/aamp/", ca), Redirect("null", "/a", true)];
    assert PostInstructions(b, cb) == [Canonical("/b", cb), Amp("/bamp/", cb), Redirect("null", "/b", true)];
    assert PostInstructions(c, cc) == [Canonical("/c", cc), Amp("/camp/", cc), Redirect("null", "/c", true)];
    assert Issued(posts, ctxs, 1) == PostInstructions(a, ca);
    assert Issued(posts, ctxs, 2) == Issued(posts, ctxs, 1) + PostInstructions(b, cb);
    assert PageInstructions(posts) == Issued(posts, ctxs, 2) + PostInstructions(c, ctxs[2]);
  }
}
