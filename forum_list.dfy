/** The forum post list: the category filter, the category chips, and which
    parts of the page show for a given loading state, error, post list,
    selected category, form flag and user. */
module Forum {
  import opened Wrappers
  import opened Text
  import Seqs

  datatype Post = Post(id: string, title: string, content: string, category: string)

  /** The category value that selects every post. */
  const AllValue := "all"

  datatype CategoryChip = CategoryChip(value: string, caption: string, emoji: string)

  const Categories := [
    CategoryChip("all", "\U{1F31F} All Topics", "\U{1F31F}"),
    CategoryChip("academic", "\U{1F4DA} Academic", "\U{1F4DA}"),
    CategoryChip("social", "\U{1F3AD} Social", "\U{1F3AD}"),
    CategoryChip("family", "\U{1F3E0} Family", "\U{1F3E0}"),
    CategoryChip("financial", "\U{1F4B0} Financial", "\U{1F4B0}"),
    CategoryChip("general", "\U{1F4AC} General", "\U{1F4AC}")
  ]

  /** `filteredPosts` */
  function FilteredPosts(posts: seq<Post>, selected: string): seq<Post>
  {
    if selected == AllValue then posts
    else Seqs.Filter(posts, (p: Post) => p.category == selected)
  }

  /** `all` shows the posts as they are; any other category shows exactly
      the posts of that category, in their order. */
  lemma FilteredPostsSpec(posts: seq<Post>, selected: string)
    ensures selected == AllValue ==> FilteredPosts(posts, selected) == posts
    ensures Seqs.IsSubsequence(FilteredPosts(posts, selected), posts)
    ensures selected != AllValue ==>
      && (forall p :: p in FilteredPosts(posts, selected) <==> p in posts && p.category == selected)
      && |FilteredPosts(posts, selected)| == Seqs.Count(posts, (p: Post) => p.category == selected)
  {
    Seqs.FilterSpec(posts, (p: Post) => p.category == selected);
    if selected == AllValue {
      SubsequenceRefl(posts);
    }
  }

  lemma {:induction false} SubsequenceRefl(posts: seq<Post>)
    ensures Seqs.IsSubsequence(posts, posts)
  {
    if posts != [] {
      SubsequenceRefl(posts[1..]);
    }
  }

  /** Index of the first line terminator, or the length when there is none. */
  function FirstLineBreak(s: string): (k: nat)
    ensures k <= |s|
    ensures forall i :: 0 <= i < k ==> !IsLineTerminator(s[i])
    ensures k < |s| ==> IsLineTerminator(s[k])
  {
    if s == [] || IsLineTerminator(s[0]) then 0 else 1 + FirstLineBreak(s[1..])
  }

  /** The largest position in `1..hi` holding a space character, if any. */
  function LastSpaceIn(s: string, hi: int): (r: Option<nat>)
    requires hi < |s|
    ensures r.Some? ==> 1 <= r.value <= hi && IsSpace(s[r.value])
    ensures r.Some? ==> forall k :: r.value < k <= hi ==> !IsSpace(s[k])
    ensures r.None? ==> forall k :: 1 <= k <= hi ==> !IsSpace(s[k])
    decreases hi
  {
    if hi < 1 then None
    else if IsSpace(s[hi]) then Some(hi)
    else LastSpaceIn(s, hi - 1)
  }

  /** Where the greedy match of `/^.+\s/` puts its `\s`, if it matches:
      `.+` takes one or more characters other than line terminators, as many
      as it can, and `\s` one space character after them. */
  function MatchEnd(caption: string): (r: Option<nat>)
    ensures r.Some? ==> 1 <= r.value < |caption| && r.value <= FirstLineBreak(caption)
    ensures r.Some? ==> IsSpace(caption[r.value])
    ensures r.Some? ==> forall k :: r.value < k < |caption| && k <= FirstLineBreak(caption) ==> !IsSpace(caption[k])
    ensures r.None? ==> forall k :: 1 <= k < |caption| && k <= FirstLineBreak(caption) ==> !IsSpace(caption[k])
  {
    if caption == [] then None
    else LastSpaceIn(caption, if FirstLineBreak(caption) < |caption| - 1 then FirstLineBreak(caption) else |caption| - 1)
  }

  /** `caption.replace(/^.+\s/, '')`: the match, if there is one, is removed. */
  function ChipLabel(caption: string): string
  {
    match MatchEnd(caption)
    case None => caption
    case Some(j) => caption[j + 1..]
  }

  /** On a caption without line breaks, the label is what follows the last
      space at position 1 or later, and holds no space; when there is no such
      space, the caption is kept whole. */
  lemma ChipLabelSpec(caption: string)
    requires FirstLineBreak(caption) == |caption|
    ensures ChipLabel(caption) == caption[|caption| - |ChipLabel(caption)|..]
    ensures ChipLabel(caption) == caption <==> forall k :: 1 <= k < |caption| ==> !IsSpace(caption[k])
    ensures ChipLabel(caption) != caption ==>
      && 1 <= |caption| - |ChipLabel(caption)| - 1
      && IsSpace(caption[|caption| - |ChipLabel(caption)| - 1])
      && forall k :: 0 <= k < |ChipLabel(caption)| ==> !IsSpace(ChipLabel(caption)[k])
  {
    var m := MatchEnd(caption);
    if m.Some? {
      var j := m.value;
      var r := caption[j + 1..];
      assert ChipLabel(caption) == r;
      forall k | 0 <= k < |r| ensures !IsSpace(r[k]) {
        assert r[k] == caption[j + 1 + k];
      }
    }
  }

  /** A caption `<head> <word>` whose word has no space loses its head:
      the label is the word. */
  lemma ChipLabelOfWords(head: string, word: string)
    requires head != []
    requires forall k :: 0 <= k < |head| ==> !IsLineTerminator(head[k])
    requires forall k :: 0 <= k < |word| ==> !IsSpace(word[k])
    ensures ChipLabel(head + " " + word) == word
  {
    var c := head + " " + word;
    var lb := FirstLineBreak(c);
    assert |head| <= lb;
    var m := MatchEnd(c);
    assert IsSpace(c[|head|]);
    assert m == Some(|head|);
    assert c[|head| + 1..] == word;
  }

  /** The first chip reads "Topics", not "All Topics". */
  lemma FirstChipLabel()
    ensures ChipLabel(Categories[0].caption) == "Topics"
  {
    var word := "Topics";
    assert forall k :: 0 <= k < |word| ==> !IsSpace(word[k]);
    assert Categories[0].caption == "\U{1F31F} All" + " " + word;
    ChipLabelOfWords("\U{1F31F} All", word);
  }

  datatype Body = LoadingBody | PostGrid(posts: seq<Post>)

  /** What the forum list shows. */
  datatype ForumScreen =
    | ErrorScreen(message: string)
    | Board(postCount: nat, chips: seq<string>, popup: bool, body: Body, emptyState: bool)

  /** `error` is the hook's error object, if any, given by its message;
      `signedIn` says whether there is a user. */
  function ScreenOf(error: Option<string>, loading: bool, posts: seq<Post>, selected: string,
                    showCreateForm: bool, signedIn: bool): ForumScreen
  {
    if error.Some? then ErrorScreen(error.value)
    else
      var filtered := FilteredPosts(posts, selected);
      Board(|posts|,
            seq(|Categories|, i requires 0 <= i < |Categories| => ChipLabel(Categories[i].caption)),
            showCreateForm && signedIn,
            if loading && |posts| == 0 then LoadingBody else PostGrid(filtered),
            !loading && |filtered| == 0)
  }

  /** The post count ignores the selected category; the empty state shows
      exactly when nothing is loading and the filter leaves no post; the
      spinner shows only while loading with no posts at all, and never
      together with the empty state; the popup needs both the form flag and
      a user. */
  lemma ScreenSpec(error: Option<string>, loading: bool, posts: seq<Post>, selected: string,
                   showCreateForm: bool, signedIn: bool)
    ensures error.Some? <==> ScreenOf(error, loading, posts, selected, showCreateForm, signedIn).ErrorScreen?
    ensures var s := ScreenOf(error, loading, posts, selected, showCreateForm, signedIn);
      s.Board? ==>
        && s.postCount == |posts|
        && (forall other :: ScreenOf(error, loading, posts, other, showCreateForm, signedIn).postCount == s.postCount)
        && (s.emptyState <==> !loading && FilteredPosts(posts, selected) == [])
        && (s.body.LoadingBody? <==> loading && posts == [])
        && !(s.body.LoadingBody? && s.emptyState)
        && (s.body.PostGrid? ==> s.body.posts == FilteredPosts(posts, selected))
        && (s.popup <==> showCreateForm && signedIn)
  {
  }
}
