/** The site's static authors and posts, the lookup of a post's author by id, and the list of
    posts joined with their authors. */
module Data {
  import opened Wrappers
  import opened Seqs

  datatype Author = Author(id: string, name: string, location: string, role: Option<string>)

  datatype PostType = Announcement | Discussion | Update | Question

  /** A `Post`; its `type` field is `kind` here. */
  datatype Post = Post(id: string, authorId: string, title: string, kind: PostType, date: string,
                       content: string, link: Option<string>)

  /** `Post & { author: Author }`: the post's own fields with its author beside them. */
  datatype PostWithAuthor = PostWithAuthor(post: Post, author: Author)

  const Authors: seq<Author> := [
    Author("mark-martha-harris", "Mark and Martha Harris", "Upper Sunny Brook Rd, Middlesex", Some("Budget Committee Chair")),
    Author("zara-vincent", "Zara Vincent", "Shady Rill Rd, Middlesex", None)
  ]

  /** The two posts, their Markdown bodies cut to the opening line. */
  const Posts: seq<Post> := [
    Post("budget-anxiety-season-2025", "mark-martha-harris", "Town Budget Anxiety Season", Announcement,
         "2025-01-11", "Hi folks,", Some("https://frontporchforum.com/middlesex/forum/archive/5551#post_3836144")),
    Post("why-we-need-a-town-administrator", "zara-vincent", "Why We Need a Town Administrator", Discussion,
         "2025-01-12", "Hi Neighbors,", Some("https://frontporchforum.com/middlesex/forum/archive/5555?fpf_forum#post_3838915"))
  ]

  predicate HasId(authorId: string, a: Author) { a.id == authorId }

  /** `getAuthor(authorId)`, over the given list of authors. */
  function GetAuthor(authors: seq<Author>, authorId: string): (r: Option<Author>)
    ensures r.Some? ==> r.value.id == authorId && r.value in authors
  {
    FindSpec(authors, a => HasId(authorId, a));
    Find(authors, a => HasId(authorId, a))
  }

  /** The author found is the first one with that id, and none is found exactly when no author
      has it. */
  lemma GetAuthorSpec(authors: seq<Author>, authorId: string)
    ensures var r := GetAuthor(authors, authorId);
      && (r.None? <==> forall i :: 0 <= i < |authors| ==> authors[i].id != authorId)
      && (r.Some? ==> exists i :: 0 <= i < |authors| && authors[i] == r.value
                                  && forall j :: 0 <= j < i ==> authors[j].id != authorId)
  {
    FindSpec(authors, a => HasId(authorId, a));
  }

  /** Every post names an author that exists, as the `!` in `getPostsWithAuthors` takes for granted. */
  predicate AuthorsResolve(authors: seq<Author>, posts: seq<Post>)
  {
    forall i :: 0 <= i < |posts| ==> GetAuthor(authors, posts[i].authorId).Some?
  }

  /** `getPostsWithAuthors()`, over the given authors and posts: one entry per post, in order, each
      keeping the post unchanged and adding the author whose id the post names. */
  function PostsWithAuthors(authors: seq<Author>, posts: seq<Post>): (r: seq<PostWithAuthor>)
    requires AuthorsResolve(authors, posts)
    ensures |r| == |posts|
    ensures forall i :: 0 <= i < |posts| ==> r[i].post == posts[i]
    ensures forall i :: 0 <= i < |posts| ==> r[i].author.id == posts[i].authorId && r[i].author in authors
    ensures forall i :: 0 <= i < |posts| ==> Some(r[i].author) == GetAuthor(authors, posts[i].authorId)
  {
    seq(|posts|, i requires 0 <= i < |posts| => PostWithAuthor(posts[i], GetAuthor(authors, posts[i].authorId).value))
  }

  predicate DistinctAuthorIds(authors: seq<Author>)
  {
    forall i, j :: 0 <= i < j < |authors| ==> authors[i].id != authors[j].id
  }

  predicate DistinctPostIds(posts: seq<Post>)
  {
    forall i, j :: 0 <= i < j < |posts| ==> posts[i].id != posts[j].id
  }

  /** With distinct author ids, each post is joined with the one author carrying its id. */
  lemma JoinedAuthorUnique(authors: seq<Author>, posts: seq<Post>, i: int, k: int)
    requires AuthorsResolve(authors, posts) && DistinctAuthorIds(authors)
    requires 0 <= i < |posts| && 0 <= k < |authors| && authors[k].id == posts[i].authorId
    ensures PostsWithAuthors(authors, posts)[i].author == authors[k]
  {
    var a := PostsWithAuthors(authors, posts)[i].author;
    var m :| 0 <= m < |authors| && authors[m] == a;
    assert m == k;
  }

  /** In the shipped data the author ids and the post ids are distinct and every post's author
      exists: Mark and Martha Harris wrote the first post and Zara Vincent the second. */
  lemma ShippedData()
    ensures DistinctAuthorIds(Authors) && DistinctPostIds(Posts)
    ensures AuthorsResolve(Authors, Posts)
    ensures PostsWithAuthors(Authors, Posts)[0].author == Authors[0]
    ensures PostsWithAuthors(Authors, Posts)[1].author == Authors[1]
  {
    assert GetAuthor(Authors, Posts[0].authorId) == Some(Authors[0]);
    assert GetAuthor(Authors, Posts[1].authorId) == Some(Authors[1]);
    assert AuthorsResolve(Authors, Posts);
    JoinedAuthorUnique(Authors, Posts, 0, 0);
    JoinedAuthorUnique(Authors, Posts, 1, 1);
  }
}
