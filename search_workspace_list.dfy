/** The template context of the workspace list in search results: which
    comments of a workspace are shown at once and which behind a toggle, and
    whether more results exist than are listed. */
module SearchWorkspaceList {
  import opened Wrappers

  /** A comment as the search result carries it: a model whose fields are its
      `attributes`, or a plain object that is its own fields. */
  datatype Comment<T> = ModelComment(attributes: T) | PlainComment(fields: T)

  function Fields<T>(c: Comment<T>): T {
    match c
    case ModelComment(a) => a
    case PlainComment(f) => f
  }

  /** The fields of every comment, in order. */
  function AllFields<T>(comments: seq<Comment<T>>): (r: seq<T>)
    ensures |r| == |comments|
    ensures forall i :: 0 <= i < |comments| ==> r[i] == Fields(comments[i])
  {
    if comments == [] then [] else [Fields(comments[0])] + AllFields(comments[1..])
  }

  /** The number of comments shown before the "more" toggle. */
  const ShownComments := 3

  datatype CommentContext<T> = CommentContext(comments: seq<T>, moreComments: seq<T>, hasMoreComments: nat)

  /** `collectionModelContext` (comment part): the first three comments are
      shown, the rest are hidden, and the number hidden is counted. */
  function CommentsContext<T>(comments: Option<seq<Comment<T>>>): (r: CommentContext<T>)
    ensures comments.None? ==> r == CommentContext([], [], 0)
    ensures comments.Some? ==> r.comments + r.moreComments == AllFields(comments.value)
    ensures |r.comments| <= ShownComments
    ensures |r.moreComments| > 0 ==> |r.comments| == ShownComments
    ensures r.hasMoreComments == |r.moreComments|
    ensures comments.Some? ==> r.hasMoreComments == if |comments.value| > ShownComments then |comments.value| - ShownComments else 0
  {
    var all := if comments.Some? then AllFields(comments.value) else [];
    var cut := if |all| < ShownComments then |all| else ShownComments;
    var more := if |all| - ShownComments > 0 then |all| - ShownComments else 0;
    assert all[..cut] + all[cut..] == all;
    CommentContext(all[..cut], all[cut..], more)
  }

  datatype ListContext = ListContext(shown: nat, total: Option<nat>, moreResults: bool)

  /** `additionalContext`: the number of workspaces listed, the total the
      search reported, and whether the total exceeds what is listed (never,
      when no total was reported). */
  function AdditionalContext(listed: nat, total: Option<nat>): (r: ListContext)
    ensures r.shown == listed && r.total == total
    ensures r.moreResults <==> total.Some? && listed < total.value
  {
    ListContext(listed, total, total.Some? && listed < total.value)
  }
}
