/** The Blog page: the post catalog, the category and search filter over it,
    the featured selection, and the page state the buttons, the search box
    and the article dialog change. */
module Blog {
  import opened Text
  import opened Catalog
  import opened BlogRender

  datatype Post = Post(
    id: int,
    title: String,
    excerpt: String,
    content: String,
    author: String,
    date: String,
    readTime: String,
    category: String,
    tags: seq<String>,
    image: String,
    featured: bool)

  /** The pseudo-category that every post matches. */
  const AllPosts: String := "all"

  /** The values of the category buttons. */
  const BlogCategories: seq<String> := ["all", "React", "TypeScript", "CSS", "WebAssembly"]

  predicate MatchesCategory(p: Post, category: String)
  {
    category == AllPosts || p.category == category
  }

  /** `tags.some(tag => tag.toLowerCase().includes(needle))`. */
  predicate SomeTagIncludes(tags: seq<String>, needle: String)
  {
    tags != [] && (Includes(Lower(tags[0]), needle) || SomeTagIncludes(tags[1..], needle))
  }

  lemma {:induction false} SomeTagIncludesIff(tags: seq<String>, needle: String)
    ensures SomeTagIncludes(tags, needle) <==> exists k :: 0 <= k < |tags| && Includes(Lower(tags[k]), needle)
  {
    if tags != [] {
      SomeTagIncludesIff(tags[1..], needle);
      if exists k :: 0 <= k < |tags| && Includes(Lower(tags[k]), needle) {
        var k :| 0 <= k < |tags| && Includes(Lower(tags[k]), needle);
        if k > 0 {
          assert tags[1..][k - 1] == tags[k];
        }
      }
    }
  }

  /** The lower-cased search term occurs in the lower-cased title, excerpt or
      one of the tags. The content is not searched. */
  predicate MatchesSearch(p: Post, term: String)
  {
    var needle := Lower(term);
    Includes(Lower(p.title), needle) || Includes(Lower(p.excerpt), needle) || SomeTagIncludes(p.tags, needle)
  }

  predicate Matches(p: Post, category: String, term: String)
  {
    MatchesCategory(p, category) && MatchesSearch(p, term)
  }

  /** `filteredPosts`: the posts of the selected category that match the
      search term, in catalog order, each as often as in the catalog. */
  function FilteredPosts(posts: seq<Post>, category: String, term: String): (r: seq<Post>)
    ensures forall p :: p in r <==> p in posts && Matches(p, category, term)
    ensures forall p :: multiset(r)[p] == if Matches(p, category, term) then multiset(posts)[p] else 0
    ensures IsSubsequence(r, posts)
  {
    var keep := (p: Post) => Matches(p, category, term);
    SelectMembers(posts, keep);
    SelectIsSubsequence(posts, keep);
    SelectMultiset(posts, keep);
    Select(posts, keep)
  }

  /** `featuredPosts`: the posts marked featured, in catalog order and each as
      often as in the catalog. It takes no filter state, so neither the
      category nor the search changes it. */
  function FeaturedPosts(posts: seq<Post>): (r: seq<Post>)
    ensures forall p :: p in r <==> p in posts && p.featured
    ensures forall p :: multiset(r)[p] == if p.featured then multiset(posts)[p] else 0
    ensures IsSubsequence(r, posts)
  {
    var keep := (p: Post) => p.featured;
    SelectMembers(posts, keep);
    SelectIsSubsequence(posts, keep);
    SelectMultiset(posts, keep);
    Select(posts, keep)
  }

  /** `t` occurs somewhere in `s`. */
  ghost predicate OccursIn(s: String, t: String)
  {
    exists i :: OccursAt(s, t, i)
  }

  /** The filter in terms of where the search term occurs, with `includes`
      and `some` replaced by their meaning. */
  lemma FilteredPostsSpec(posts: seq<Post>, category: String, term: String, p: Post)
    ensures p in FilteredPosts(posts, category, term) <==>
      && p in posts
      && (category == "all" || p.category == category)
      && (|| OccursIn(Lower(p.title), Lower(term))
          || OccursIn(Lower(p.excerpt), Lower(term))
          || (exists k :: 0 <= k < |p.tags| && OccursIn(Lower(p.tags[k]), Lower(term))))
  {
    var needle := Lower(term);
    IncludesIff(Lower(p.title), needle);
    IncludesIff(Lower(p.excerpt), needle);
    SomeTagIncludesIff(p.tags, needle);
    forall k | 0 <= k < |p.tags|
      ensures Includes(Lower(p.tags[k]), needle) <==> OccursIn(Lower(p.tags[k]), needle)
    {
      IncludesIff(Lower(p.tags[k]), needle);
    }
  }

  /** With every category and an empty search, the whole catalog is listed:
      every string includes the empty string. */
  lemma AllAndEmptyListsEverything(posts: seq<Post>)
    ensures FilteredPosts(posts, "all", "") == posts
  {
    var keep := (p: Post) => Matches(p, "all", "");
    forall p | p in posts
      ensures keep(p)
    {
      IncludesEmpty(Lower(p.title));
    }
    SelectAll(posts, keep);
  }

  /** The search ignores case: terms with the same lower-case form list the
      same posts. */
  lemma SearchIgnoresCase(posts: seq<Post>, category: String, term1: String, term2: String)
    requires Lower(term1) == Lower(term2)
    ensures FilteredPosts(posts, category, term1) == FilteredPosts(posts, category, term2)
  {
    SelectCongruent(posts, (p: Post) => Matches(p, category, term1), (p: Post) => Matches(p, category, term2));
  }

  /** In particular a term lists the same posts as its lower-case form. */
  lemma SearchSameAsLowerCase(posts: seq<Post>, category: String, term: String)
    ensures FilteredPosts(posts, category, term) == FilteredPosts(posts, category, Lower(term))
  {
    LowerIdempotent(term);
    SearchIgnoresCase(posts, category, term, Lower(term));
  }

  /** Narrowing the category only removes posts. */
  lemma CategoryNarrows(posts: seq<Post>, category: String, term: String)
    ensures forall p :: p in FilteredPosts(posts, category, term) ==> p in FilteredPosts(posts, "all", term)
  {
  }

  /** The search looks at the title, the excerpt and the tags only: a post's
      content never decides whether it is listed. */
  lemma ContentNotSearched(p: Post, content: String, category: String, term: String)
    ensures Matches(p.(content := content), category, term) == Matches(p, category, term)
  {
  }

  const Title1: String := "Building Scalable " + "React" + " Applications: Best Practices"
  const Excerpt1: String := "Learn the essential patterns and techniques for building maintainable React applications that can grow with your team and user base."
  const Title2: String := "TypeScript in 2024: Why You Should Make the Switch"
  const Excerpt2: String := "Discover how TypeScript can improve your development experience with better type safety, IDE support, and code maintainability."
  const Title3: String := "Modern CSS Techniques for Better UI/UX"
  const Excerpt3: String := "Explore the latest CSS features and techniques that can help you create stunning user interfaces with less code."
  const Title4: String := "The Future of Web Development: WebAssembly"
  const Excerpt4: String := "WebAssembly is changing how we think about web performance. Learn what it is and how it impacts modern web development."

  function SamplePost1(content: String): Post
  {
    Post(1, Title1, Excerpt1, content, "Your Name", "2024-01-15", "8 min read", "React",
         ["React", "JavaScript", "Web Development", "Best Practices"], "\U{269B}\U{FE0F}", true)
  }

  function SamplePost2(content: String): Post
  {
    Post(2, Title2, Excerpt2, content, "Your Name", "2024-01-10", "6 min read", "TypeScript",
         ["TypeScript", "JavaScript", "Type Safety"], "\U{1F4D8}", true)
  }

  function SamplePost3(content: String): Post
  {
    Post(3, Title3, Excerpt3, content, "Your Name", "2024-01-05", "5 min read", "CSS",
         ["CSS", "UI/UX", "Web Design", "Responsive Design"], "\U{1F3A8}", false)
  }

  function SamplePost4(content: String): Post
  {
    Post(4, Title4, Excerpt4, content, "Your Name", "2023-12-28", "7 min read", "WebAssembly",
         ["WebAssembly", "Performance", "C++", "Rust"], "\U{1F680}", false)
  }

  /** The page's catalog. The article bodies are long literal texts; they
      are parameters here, since nothing but the article view reads them. */
  function SamplePosts(c1: String, c2: String, c3: String, c4: String): (r: seq<Post>)
    ensures |r| == 4
    ensures r[0].content == c1 && r[1].content == c2 && r[2].content == c3 && r[3].content == c4
  {
    [SamplePost1(c1), SamplePost2(c2), SamplePost3(c3), SamplePost4(c4)]
  }

  /** The empty search matches every post. */
  lemma EmptySearchMatches(p: Post)
    ensures MatchesSearch(p, "")
  {
    IncludesEmpty(Lower(p.title));
  }

  /** A post whose category is not the chosen one is not listed, whatever
      the search term. */
  lemma OtherCategoryExcluded(p: Post, category: String, term: String)
    requires category != AllPosts && p.category != category
    ensures !Matches(p, category, term)
  {
  }

  lemma OnlyPost3IsCss(c1: String, c2: String, c3: String, c4: String)
    ensures Matches(SamplePost3(c3), "CSS", "")
    ensures !Matches(SamplePost1(c1), "CSS", "") && !Matches(SamplePost2(c2), "CSS", "") && !Matches(SamplePost4(c4), "CSS", "")
  {
    EmptySearchMatches(SamplePost3(c3));
    OtherCategoryExcluded(SamplePost1(c1), "CSS", "");
    OtherCategoryExcluded(SamplePost2(c2), "CSS", "");
    OtherCategoryExcluded(SamplePost4(c4), "CSS", "");
  }

  /** Choosing the CSS category with an empty search lists the CSS post alone. */
  lemma CssCategoryListsCssPost(c1: String, c2: String, c3: String, c4: String)
    ensures FilteredPosts(SamplePosts(c1, c2, c3, c4), "CSS", "") == [SamplePost3(c3)]
  {
    var keep := (p: Post) => Matches(p, "CSS", "");
    OnlyPost3IsCss(c1, c2, c3, c4);
    SelectCons(SamplePost4(c4), [], keep);
    SelectCons(SamplePost3(c3), [SamplePost4(c4)], keep);
    SelectCons(SamplePost2(c2), [SamplePost3(c3), SamplePost4(c4)], keep);
    SelectCons(SamplePost1(c1), [SamplePost2(c2), SamplePost3(c3), SamplePost4(c4)], keep);
  }

  /** The filter on `featured`, applied to the four posts, keeps the first
      two. */
  lemma FeaturedSelect(c1: String, c2: String, c3: String, c4: String)
    ensures Select(SamplePosts(c1, c2, c3, c4), (p: Post) => p.featured) == [SamplePost1(c1), SamplePost2(c2)]
  {
    var keep := (p: Post) => p.featured;
    SelectCons(SamplePost4(c4), [], keep);
    SelectCons(SamplePost3(c3), [SamplePost4(c4)], keep);
    SelectCons(SamplePost2(c2), [SamplePost3(c3), SamplePost4(c4)], keep);
    SelectCons(SamplePost1(c1), [SamplePost2(c2), SamplePost3(c3), SamplePost4(c4)], keep);
  }

  /** The first two posts are the featured ones. */
  lemma SampleFeatured(c1: String, c2: String, c3: String, c4: String)
    ensures FeaturedPosts(SamplePosts(c1, c2, c3, c4)) == [SamplePost1(c1), SamplePost2(c2)]
  {
    FeaturedSelect(c1, c2, c3, c4);
  }

  lemma LowerReact()
    ensures Lower("React") == "react"
  {
  }

  /** The first post's title holds "React", so a search for "react" matches it. */
  lemma ReactMatchesPost1(p: Post)
    requires p.title == Title1
    ensures MatchesSearch(p, "react")
  {
    var a, b := "Building Scalable ", " Applications: Best Practices";
    LowerAppend(a + "React", b);
    LowerAppend(a, "React");
    LowerReact();
    LowerIdempotent("React");
    IncludesInfix(Lower(a), "react", Lower(b));
  }

  /** Searching "react" finds the first post through its title. */
  lemma ReactSearchFindsFirstPost(c1: String, c2: String, c3: String, c4: String)
    ensures SamplePost1(c1) in FilteredPosts(SamplePosts(c1, c2, c3, c4), "all", "react")
  {
    ReactMatchesPost1(SamplePost1(c1));
  }

  /** The state of the Blog page. The catalog is fixed; the category, the
      search term and the open article are what the handlers change. */
  class BlogPage {
    const posts: seq<Post>
    var selectedCategory: String
    var searchTerm: String
    var selectedPost: Option<Post>

    /** The invariant every handler keeps: the category is one of the
        buttons' values, and an open article is a post of the catalog, since
        it can only be opened from a card of the listed or featured posts. */
    ghost predicate Valid()
      reads this
    {
      && selectedCategory in BlogCategories
      && (selectedPost.Some? ==> selectedPost.value in posts)
    }

    /** Mounting the page: every category, no search, no article open. */
    constructor (posts: seq<Post>)
      ensures Valid()
      ensures this.posts == posts
      ensures selectedCategory == "all" && searchTerm == "" && selectedPost == None
    {
      this.posts := posts;
      selectedCategory := "all";
      searchTerm := "";
      selectedPost := None;
    }

    /** The posts listed under "All Posts" or "Search Results". */
    function Listed(): seq<Post>
      reads this
    {
      FilteredPosts(posts, selectedCategory, searchTerm)
    }

    /** The featured section is shown only for every category and an empty
        search term. */
    predicate FeaturedShown()
      reads this
    {
      selectedCategory == AllPosts && searchTerm == ""
    }

    /** Typing in the search box replaces the search term. */
    method SetSearchTerm(term: String)
      requires Valid()
      modifies this
      ensures Valid()
      ensures searchTerm == term
      ensures selectedCategory == old(selectedCategory) && selectedPost == old(selectedPost)
    {
      searchTerm := term;
    }

    /** A category button selects its value. */
    method SelectCategory(category: String)
      requires Valid()
      requires category in BlogCategories
      modifies this
      ensures Valid()
      ensures selectedCategory == category
      ensures searchTerm == old(searchTerm) && selectedPost == old(selectedPost)
    {
      selectedCategory := category;
    }

    /** Clicking a post card, in the featured section while it is shown or in
        the list, opens that post, replacing any post already open. */
    method OpenPost(p: Post)
      requires Valid()
      requires p in Listed() || (FeaturedShown() && p in FeaturedPosts(posts))
      modifies this
      ensures Valid()
      ensures selectedPost == Some(p)
      ensures selectedCategory == old(selectedCategory) && searchTerm == old(searchTerm)
    {
      selectedPost := Some(p);
    }

    /** A click while the article is open: the close button and the backdrop
        close it, a click inside the panel leaves it open. */
    method Click(target: ClickTarget)
      requires Valid() && selectedPost.Some?
      modifies this
      ensures Valid()
      ensures selectedPost == if target == Panel then old(selectedPost) else None
      ensures selectedCategory == old(selectedCategory) && searchTerm == old(searchTerm)
    {
      if target != Panel {
        selectedPost := None;
      }
    }

    /** The body of the open article: one block per line of its content. */
    function Article(): (r: seq<Block>)
      reads this
      requires selectedPost.Some?
      ensures |r| == Count(selectedPost.value.content, '\n') + 1
    {
      RenderLength(selectedPost.value.content);
      Render(selectedPost.value.content)
    }
  }

  /** Opening one post and then another without closing leaves only the
      second open. */
  method OpenTwice(page: BlogPage, p1: Post, p2: Post)
    requires page.Valid()
    requires p1 in page.Listed() && p2 in page.Listed()
    modifies page
    ensures page.Valid()
    ensures page.selectedPost == Some(p2)
    ensures page.selectedCategory == old(page.selectedCategory) && page.searchTerm == old(page.searchTerm)
  {
    page.OpenPost(p1);
    page.OpenPost(p2);
  }
}
