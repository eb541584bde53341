/**
 * The context handed to each page created by createPages in gatsby-node.js:
 * the post's slug, its neighbours in the date-sorted sequence and its
 * series cohort. Each field is a pure expression of the post sequence.
 */
module PageContext {
  import opened Wrappers
  import opened Posts

  datatype Context = Context(
    slug: string,
    prevPost: Option<Post>,
    nextPost: Option<Post>,
    seriesPosts: seq<Post>)

  /** The post before position i, or null for the first post. */
  function PrevPost(posts: seq<Post>, i: nat): Option<Post>
    requires i < |posts|
  {
    if i == 0 then None else Some(posts[i - 1])
  }

  /** The post after position i, or null for the last post. */
  function NextPost(posts: seq<Post>, i: nat): Option<Post>
    requires i < |posts|
  {
    if i == |posts| - 1 then None else Some(posts[i + 1])
  }

  /**
   * The series filter: it runs over the query's edges and keeps those whose
   * `node.frontmatter.series` loosely equals `s`. The loose `==` compares a
   * nullable string against a non-empty string here, so it holds exactly
   * when the post's series is that same string.
   */
  function SeriesMembers(posts: seq<Post>, s: string): seq<Post>
  {
    SeriesFilter(posts, s, |posts|)
  }

  /** The filter applied to the first `n` posts. */
  function SeriesFilter(posts: seq<Post>, s: string, n: nat): seq<Post>
    requires n <= |posts|
  {
    if n == 0 then []
    else SeriesFilter(posts, s, n - 1) + (if posts[n - 1].series == Some(s) then [posts[n - 1]] else [])
  }

  /** The positions among the first `n` posts whose series is `s`, in ascending order. */
  function SeriesPositions(posts: seq<Post>, s: string, n: nat): seq<nat>
    requires n <= |posts|
  {
    if n == 0 then []
    else SeriesPositions(posts, s, n - 1) + (if posts[n - 1].series == Some(s) then [n - 1] else [])
  }

  /**
   * A post is kept by the filter over the first `n` posts exactly when it
   * is one of them and its series is `s`.
   */
  lemma {:induction false} SeriesMembership(posts: seq<Post>, s: string, n: nat)
    requires n <= |posts|
    ensures forall p :: p in SeriesFilter(posts, s, n) <==> p in posts[..n] && p.series == Some(s)
  {
    if n > 0 {
      SeriesMembership(posts, s, n - 1);
      assert posts[..n] == posts[..n - 1] + [posts[n - 1]];
    }
  }

  /** Every position is below `n`, and the positions strictly ascend. */
  lemma {:induction false} SeriesPositionsAscend(posts: seq<Post>, s: string, n: nat)
    requires n <= |posts|
    ensures forall k :: 0 <= k < |SeriesPositions(posts, s, n)| ==> SeriesPositions(posts, s, n)[k] < n
    ensures forall k, l :: 0 <= k < l < |SeriesPositions(posts, s, n)| ==>
      SeriesPositions(posts, s, n)[k] < SeriesPositions(posts, s, n)[l]
  {
    if n > 0 {
      SeriesPositionsAscend(posts, s, n - 1);
    }
  }

  /** A position below `n` is listed exactly when the post there belongs to series `s`. */
  lemma {:induction false} SeriesPositionsExact(posts: seq<Post>, s: string, n: nat)
    requires n <= |posts|
    ensures forall j :: 0 <= j < n ==> (j in SeriesPositions(posts, s, n) <==> posts[j].series == Some(s))
  {
    if n > 0 {
      SeriesPositionsExact(posts, s, n - 1);
      SeriesPositionsAscend(posts, s, n - 1);
      var idx := SeriesPositions(posts, s, n - 1);
      var tail := if posts[n - 1].series == Some(s) then [n - 1] else [];
      forall x | x in idx
        ensures x < n - 1
      {
        var k :| 0 <= k < |idx| && idx[k] == x;
      }
      forall j | 0 <= j < n
        ensures j in idx + tail <==> posts[j].series == Some(s)
      {
        assert j in idx + tail <==> j in idx || j in tail;
      }
    }
  }

  /** The k-th kept post is the post at the k-th listed position. */
  lemma {:induction false} SeriesMembersAt(posts: seq<Post>, s: string, n: nat)
    requires n <= |posts|
    ensures |SeriesPositions(posts, s, n)| == |SeriesFilter(posts, s, n)|
    ensures forall k :: 0 <= k < |SeriesPositions(posts, s, n)| ==>
      SeriesPositions(posts, s, n)[k] < |posts| &&
      SeriesFilter(posts, s, n)[k] == posts[SeriesPositions(posts, s, n)[k]]
  {
    if n > 0 {
      SeriesMembersAt(posts, s, n - 1);
      var idx, mem := SeriesPositions(posts, s, n - 1), SeriesFilter(posts, s, n - 1);
      var r, m := SeriesPositions(posts, s, n), SeriesFilter(posts, s, n);
      forall k | 0 <= k < |r|
        ensures r[k] < |posts| && m[k] == posts[r[k]]
      {
        if k < |idx| {
          assert r[k] == idx[k] && m[k] == mem[k];
        }
      }
    }
  }

  /**
   * The cohort is exactly the subsequence of `posts` picked out by the
   * ascending positions of the posts in series `s`: input order is kept,
   * and no matching post is dropped or repeated.
   */
  lemma {:induction false} SeriesMembersIsSubsequence(posts: seq<Post>, s: string)
    ensures |SeriesPositions(posts, s, |posts|)| == |SeriesMembers(posts, s)|
    ensures forall k :: 0 <= k < |SeriesPositions(posts, s, |posts|)| ==>
      SeriesPositions(posts, s, |posts|)[k] < |posts| &&
      SeriesMembers(posts, s)[k] == posts[SeriesPositions(posts, s, |posts|)[k]]
    ensures forall k, l :: 0 <= k < l < |SeriesPositions(posts, s, |posts|)| ==>
      SeriesPositions(posts, s, |posts|)[k] < SeriesPositions(posts, s, |posts|)[l]
    ensures forall j :: 0 <= j < |posts| ==>
      (j in SeriesPositions(posts, s, |posts|) <==> posts[j].series == Some(s))
  {
    SeriesMembersAt(posts, s, |posts|);
    SeriesPositionsAscend(posts, s, |posts|);
    SeriesPositionsExact(posts, s, |posts|);
  }

  /** The series cohort of a post: its series' members, or none when its series is falsy. */
  function SeriesCohort(posts: seq<Post>, p: Post): seq<Post>
  {
    if IsTruthy(p.series) then SeriesMembers(posts, p.series.value) else []
  }

  /** The context object built for the post at position `index`. */
  function ContextAt(posts: seq<Post>, index: nat): Context
    requires index < |posts|
  {
    var node := posts[index];
    Context(node.slug, PrevPost(posts, index), NextPost(posts, index), SeriesCohort(posts, node))
  }

  /**
   * The context of the post at `index` carries its slug; its previous post
   * is null exactly at the first position and otherwise the post before it;
   * its next post is null exactly at the last position and otherwise the
   * post after it; its cohort is empty when its series is absent or empty,
   * and otherwise it is the series filter over all posts, which holds the
   * post itself and exactly the posts of its series.
   */
  lemma ContextOfPost(posts: seq<Post>, index: nat)
    requires index < |posts|
    ensures ContextAt(posts, index).slug == posts[index].slug
    ensures ContextAt(posts, index).prevPost == None <==> index == 0
    ensures index > 0 ==> ContextAt(posts, index).prevPost == Some(posts[index - 1])
    ensures ContextAt(posts, index).nextPost == None <==> index == |posts| - 1
    ensures index < |posts| - 1 ==> ContextAt(posts, index).nextPost == Some(posts[index + 1])
    ensures !IsTruthy(posts[index].series) ==> ContextAt(posts, index).seriesPosts == []
    ensures IsTruthy(posts[index].series) ==>
      posts[index] in ContextAt(posts, index).seriesPosts &&
      forall p :: p in ContextAt(posts, index).seriesPosts <==> p in posts && p.series == posts[index].series
    ensures IsTruthy(posts[index].series) ==>
      ContextAt(posts, index).seriesPosts == SeriesMembers(posts, posts[index].series.value)
  {
    if IsTruthy(posts[index].series) {
      SeriesMembership(posts, posts[index].series.value, |posts|);
      assert posts[..|posts|] == posts;
    }
  }

  /**
   * All posts of one non-empty series get the same cohort, and it is the
   * in-order subsequence of every post of that series, themselves included.
   */
  lemma SameSeriesSameCohort(posts: seq<Post>, i: nat, j: nat)
    requires i < |posts| && j < |posts|
    requires IsTruthy(posts[i].series) && posts[j].series == posts[i].series
    ensures ContextAt(posts, i).seriesPosts == ContextAt(posts, j).seriesPosts
    ensures posts[i] in ContextAt(posts, j).seriesPosts && posts[j] in ContextAt(posts, i).seriesPosts
    ensures ContextAt(posts, i).seriesPosts == SeriesMembers(posts, posts[i].series.value)
  {
    ContextOfPost(posts, i);
    ContextOfPost(posts, j);
  }
}
