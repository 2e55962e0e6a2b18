/** The feed page of `components/Feed.tsx`: the blank-post guard and the filtered, newest-first list. */
module Feed {
  import opened Types
  import Text
  import Seqs
  import Firebase

  datatype PostFilter = All | Founders | Funders

  /** The filter test; it reads the author snapshot stored in the post. */
  predicate Keeps(f: PostFilter, p: Post)
  {
    match f
    case All => true
    case Founders => p.author.role == Founder
    case Funders => p.author.role == Funder
  }

  function KeepFn(f: PostFilter): Post -> bool
  {
    (p: Post) => Keeps(f, p)
  }

  function Timestamp(p: Post): int
  {
    p.timestamp
  }

  /** `filteredPosts`: the posts the filter keeps, newest first. */
  function FilteredPosts(posts: seq<Post>, f: PostFilter): (r: seq<Post>)
    ensures Seqs.SortedDesc(r, Timestamp)
    ensures multiset(r) == multiset(Seqs.Filter(posts, KeepFn(f)))
  {
    Seqs.SortByKey(Seqs.Filter(posts, KeepFn(f)), Timestamp)
  }

  /** Each post is shown as often as it is stored if the filter keeps it, and not at all otherwise. */
  lemma FilteredPostsCount(posts: seq<Post>, f: PostFilter, p: Post)
    ensures multiset(FilteredPosts(posts, f))[p] == if Keeps(f, p) then multiset(posts)[p] else 0
  {
    Seqs.FilterCount(posts, KeepFn(f), p);
  }

  /** "All" shows every stored post, "Founders" exactly the founders' posts, "Funders" exactly the funders'. */
  lemma FilteredPostsMembership(posts: seq<Post>, p: Post)
    ensures p in FilteredPosts(posts, All) <==> p in posts
    ensures p in FilteredPosts(posts, Founders) <==> p in posts && p.author.role == Founder
    ensures p in FilteredPosts(posts, Funders) <==> p in posts && p.author.role == Funder
  {
    FilteredPostsCount(posts, All, p);
    FilteredPostsCount(posts, Founders, p);
    FilteredPostsCount(posts, Funders, p);
  }

  /** The founders' and the funders' views together show every stored post exactly once. */
  lemma FoundersAndFundersPartitionFeed(posts: seq<Post>)
    ensures multiset(FilteredPosts(posts, Founders)) + multiset(FilteredPosts(posts, Funders)) == multiset(posts)
  {
    Seqs.FilterPartition(posts, KeepFn(Founders), KeepFn(Funders));
  }

  /** When storage order is already newest first, "All" shows the posts in storage order. */
  lemma NewestFirstStorageIsDisplayOrder(posts: seq<Post>)
    requires Seqs.SortedDesc(posts, Timestamp)
    ensures FilteredPosts(posts, All) == posts
  {
    Seqs.FilterAll(posts, KeepFn(All));
    Seqs.SortSortedUnchanged(posts, Timestamp);
  }

  /** Prepending a post no older than the first keeps the stored list newest first. */
  lemma PrependKeepsNewestFirst(posts: seq<Post>, p: Post)
    requires Seqs.SortedDesc(posts, Timestamp)
    requires posts == [] || p.timestamp >= posts[0].timestamp
    ensures Seqs.SortedDesc([p] + posts, Timestamp)
  {
    assert forall i :: 0 <= i < |posts| ==> Timestamp(posts[0]) >= Timestamp(posts[i]);
  }

  /**
   * `handlePostSubmit`: blank content (after trimming) does nothing; otherwise the
   * post is created as typed. `id` and `now` are the store's fresh id and clock.
   */
  method SubmitPost(store: Firebase.Backend, me: UserProfile, content: string, id: string, now: int)
    returns (posted: bool)
    modifies store`posts, store`delivered
    ensures posted <==> !Text.IsBlank(content)
    ensures !posted ==> store.posts == old(store.posts) && store.delivered == old(store.delivered)
    ensures posted ==>
      && store.posts == [Firebase.MakePost(me, content, id, now)] + old(store.posts)
      && store.delivered == old(store.delivered) + Firebase.Notify(store.postListener, Firebase.PostList(store.posts))
  {
    posted := Text.HasText(content);
    if posted {
      store.CreatePost(me, content, id, now);
    }
  }
}
