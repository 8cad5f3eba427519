/**
  The blog read routes: a fixed list of two posts, optionally filtered by
  author, and a generated post for any id.
 */
module BlogGet {
  import opened Api

  datatype Blog = Blog(id: int, title: string, author: string)

  /** The mock posts, in their listed order. */
  const MockBlogs: seq<Blog> := [
    Blog(1, "Intro to FastAPI", "Alice"),
    Blog(2, "Building APIs with FastAPI", "Bob")
  ]

  /** `[blog for blog in blogs if blog["author"] == author]`. */
  function ByAuthor(blogs: seq<Blog>, author: string): seq<Blog>
    decreases |blogs|
  {
    if blogs == [] then []
    else if blogs[0].author == author then [blogs[0]] + ByAuthor(blogs[1..], author)
    else ByAuthor(blogs[1..], author)
  }

  /** `get_all_blogs`: a missing or empty author is falsy and filters nothing. */
  function GetAllBlogs(author: Option<string>): (blogs: seq<Blog>)
    ensures author.None? || author == Some("") ==> blogs == MockBlogs
    ensures forall b :: b in blogs ==> b in MockBlogs
    ensures author.Some? && author.value != "" ==> forall b :: b in blogs ==> b.author == author.value
  {
    ByAuthorExact(MockBlogs, if author.Some? then author.value else "");
    if author.Some? && author.value != "" then ByAuthor(MockBlogs, author.value) else MockBlogs
  }

  /** `a` is `b` with some elements left out, the rest in their order. */
  predicate IsSubsequence(a: seq<Blog>, b: seq<Blog>)
    decreases |b|
  {
    if a == [] then true
    else if b == [] then false
    else if a[0] == b[0] then IsSubsequence(a[1..], b[1..])
    else IsSubsequence(a, b[1..])
  }

  /** The filter keeps exactly the posts by `author`, in order. */
  lemma {:induction false} ByAuthorExact(blogs: seq<Blog>, author: string)
    ensures forall b :: b in ByAuthor(blogs, author) <==> b in blogs && b.author == author
    ensures IsSubsequence(ByAuthor(blogs, author), blogs)
    decreases |blogs|
  {
    if blogs != [] {
      ByAuthorExact(blogs[1..], author);
      if blogs[0].author == author {
        assert ([blogs[0]] + ByAuthor(blogs[1..], author))[1..] == ByAuthor(blogs[1..], author);
      } else {
        SubsequenceOfTail(ByAuthor(blogs[1..], author), blogs);
      }
    }
  }

  /** Dropping the head of `b` keeps subsequences of its tail subsequences of `b`. */
  lemma {:induction false} SubsequenceOfTail(a: seq<Blog>, b: seq<Blog>)
    requires b != [] && IsSubsequence(a, b[1..])
    ensures IsSubsequence(a, b)
    decreases |b|, 0
  {
    if a != [] && a[0] == b[0] {
      SubsequenceDropHead(a, b[1..]);
    }
  }

  lemma {:induction false} SubsequenceDropHead(a: seq<Blog>, b: seq<Blog>)
    requires a != [] && IsSubsequence(a, b)
    ensures IsSubsequence(a[1..], b)
    decreases |b|, 1
  {
    if b != [] && a[1..] != [] {
      if a[0] != b[0] {
        SubsequenceDropHead(a, b[1..]);
      }
      SubsequenceOfTail(a[1..], b);
    }
  }

  /** Without a (non-empty) author both posts come back unchanged; with one, exactly that author's posts, in order. */
  lemma GetAllBlogsFilters(author: Option<string>)
    ensures author.None? || author == Some("") ==> GetAllBlogs(author) == MockBlogs
    ensures author.Some? && author.value != "" ==>
      && (forall b :: b in GetAllBlogs(author) <==> b in MockBlogs && b.author == author.value)
      && IsSubsequence(GetAllBlogs(author), MockBlogs)
  {
    if author.Some? && author.value != "" {
      ByAuthorExact(MockBlogs, author.value);
    }
  }

  /** "Alice" finds post 1 only, and a non-empty author of neither post finds nothing. */
  lemma KnownAndUnknownAuthors(author: string)
    ensures GetAllBlogs(Some("Alice")) == [Blog(1, "Intro to FastAPI", "Alice")]
    ensures author != "" && author != "Alice" && author != "Bob" ==> GetAllBlogs(Some(author)) == []
  {
    assert MockBlogs[1..][1..] == [];
  }

  /** The decimal digit for 0..9. */
  function Digit(d: nat): char
    requires d < 10
  {
    "0123456789"[d]
  }

  /** Python's `str` of a non-negative int. */
  function NatToString(n: nat): string
    decreases n
  {
    if n < 10 then [Digit(n)] else NatToString(n / 10) + [Digit(n % 10)]
  }

  /** Python's `str` of an int. */
  function IntToString(n: int): string
  {
    if n < 0 then "-" + NatToString(-n) else NatToString(n)
  }

  /** The number a string of decimal digits denotes. */
  function DecimalValue(s: string): int
    decreases |s|
  {
    if s == [] then 0
    else DecimalValue(s[..|s| - 1]) * 10 + ((s[|s| - 1] as int) - ('0' as int))
  }

  /** The digits formatted denote the number again, and start with a digit other than '0' unless the number is 0. */
  lemma {:induction false} NatToStringValue(n: nat)
    ensures DecimalValue(NatToString(n)) == n
    ensures |NatToString(n)| >= 1 && '0' <= NatToString(n)[0] <= '9'
    ensures n > 0 ==> NatToString(n)[0] != '0'
    decreases n
  {
    if n >= 10 {
      NatToStringValue(n / 10);
      var s := NatToString(n);
      assert s[..|s| - 1] == NatToString(n / 10);
      assert s[0] == NatToString(n / 10)[0];
    }
  }

  /** The decimal text of an int determines the int. */
  lemma IntToStringInjective(a: int, b: int)
    requires IntToString(a) == IntToString(b)
    ensures a == b
  {
    NatToStringValue(if a < 0 then -a else a);
    NatToStringValue(if b < 0 then -b else b);
    if a < 0 && b < 0 {
      assert NatToString(-a) == IntToString(a)[1..];
      assert NatToString(-b) == IntToString(b)[1..];
    }
  }

  datatype BlogPost = BlogPost(id: int, title: string, content: string)

  /** `get_blog`. */
  function GetBlog(blogId: int): (post: BlogPost)
    ensures post.id == blogId && post.content == "This is a sample blog post."
    ensures |post.title| > 12 && post.title[..12] == "Sample Blog "
  {
    NatToStringValue(if blogId < 0 then -blogId else blogId);
    BlogPost(blogId, "Sample Blog " + IntToString(blogId), "This is a sample blog post.")
  }

  /** The post echoes its id, and its title names it: two ids never share a title. */
  lemma GetBlogTitles(a: int, b: int)
    ensures GetBlog(a).id == a
    ensures GetBlog(a).title == "Sample Blog " + IntToString(a)
    ensures GetBlog(a).title == GetBlog(b).title ==> a == b
  {
    if GetBlog(a).title == GetBlog(b).title {
      var prefix := "Sample Blog ";
      assert GetBlog(a).title[|prefix|..] == IntToString(a);
      assert GetBlog(b).title[|prefix|..] == IntToString(b);
      IntToStringInjective(a, b);
    }
  }
}
