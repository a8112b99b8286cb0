/** A community post: up/down reactions driven by the user's current reaction, and a
    comment thread fed from a draft text box. */
module PostForm {
  import opened Primitives

  datatype ReactionType = Like | Dislike

  /** The reaction counters and the user's current reaction (`null` is None). */
  datatype Reactions = Reactions(likes: int, dislikes: int, current: Option<ReactionType>)

  /** The state on mount: no counts and no reaction. */
  const NoReactions: Reactions := Reactions(0, 0, None)

  /** The counter a reaction type drives. */
  function Count(s: Reactions, t: ReactionType): int
  {
    if t == Like then s.likes else s.dislikes
  }

  function Other(t: ReactionType): ReactionType
  {
    if t == Like then Dislike else Like
  }

  /** The counters agree with the current reaction: each is 1 exactly when it is the
      user's reaction and 0 otherwise. */
  predicate Consistent(s: Reactions)
  {
    s.likes == (if s.current == Some(Like) then 1 else 0) &&
    s.dislikes == (if s.current == Some(Dislike) then 1 else 0)
  }

  /** `handleReaction(t)`: pressing the active reaction clears it and takes back its
      count; pressing the other one moves the count over; with no reaction it just adds. */
  function React(s: Reactions, t: ReactionType): (r: Reactions)
    ensures Consistent(s) ==> Consistent(r)
    ensures s.current == Some(t) ==>
      r.current == None && Count(r, t) == Count(s, t) - 1 && Count(r, Other(t)) == Count(s, Other(t))
    ensures s.current != Some(t) ==>
      r.current == Some(t) && Count(r, t) == Count(s, t) + 1 &&
      Count(r, Other(t)) == Count(s, Other(t)) - (if s.current == Some(Other(t)) then 1 else 0)
  {
    // the current reaction, if any, is withdrawn either way ...
    var withdrawn :=
      match s.current
      case Some(Like) => s.(likes := s.likes - 1, current := None)
      case Some(Dislike) => s.(dislikes := s.dislikes - 1, current := None)
      case None => s;
    // ... and a different one is then recorded
    if s.current == Some(t) then withdrawn
    else
      match t
      case Like => withdrawn.(likes := withdrawn.likes + 1, current := Some(Like))
      case Dislike => withdrawn.(dislikes := withdrawn.dislikes + 1, current := Some(Dislike))
  }

  /** The reactions after the presses `ts`, in order; consistency is kept throughout. */
  function ReactAll(s: Reactions, ts: seq<ReactionType>): (r: Reactions)
    ensures Consistent(s) ==> Consistent(r)
    decreases |ts|
  {
    if ts == [] then s else ReactAll(React(s, ts[0]), ts[1..])
  }

  /** From the mounted state, any presses leave each counter at 1 exactly when it is
      the current reaction and 0 otherwise: never negative and never both 1. */
  lemma {:induction false} ReactionsFromStart(ts: seq<ReactionType>)
    ensures var r := ReactAll(NoReactions, ts);
      (r.likes == 1 <==> r.current == Some(Like)) &&
      (r.dislikes == 1 <==> r.current == Some(Dislike)) &&
      0 <= r.likes <= 1 && 0 <= r.dislikes <= 1 && !(r.likes == 1 && r.dislikes == 1)
  {
    assert Consistent(NoReactions);
  }

  /** From no reaction, pressing the same reaction twice restores the counters. */
  lemma ReactTwiceRestores(s: Reactions, t: ReactionType)
    requires s.current == None
    ensures React(React(s, t), t) == s
  {
  }

  /** A posted comment; the id and the timestamp come from the clock. */
  datatype Comment = Comment(id: string, text: string, username: string, timestamp: int)

  const DefaultUsername: string := "Default User"

  /** The component: the reaction, comment and visibility hooks as fields, the
      handlers as methods. */
  class PostComponent {
    var likes: int
    var dislikes: int
    var userReaction: Option<ReactionType>
    var comments: seq<Comment>
    var newComment: string
    /** Set by the comments button and read nowhere: the thread is always rendered. */
    var showComments: bool

    function ReactionState(): Reactions
      reads this
    {
      Reactions(likes, dislikes, userReaction)
    }

    constructor ()
      ensures ReactionState() == NoReactions
      ensures comments == [] && newComment == "" && !showComments
    {
      likes, dislikes, userReaction := 0, 0, None;
      comments, newComment, showComments := [], "", false;
    }

    /** `handleReaction(t)`: the counters move by the queued updates, and the comment
        thread is untouched. */
    method HandleReaction(t: ReactionType)
      modifies this
      ensures ReactionState() == React(old(ReactionState()), t)
      ensures comments == old(comments) && newComment == old(newComment)
      ensures showComments == old(showComments)
    {
      if userReaction == Some(t) {
        userReaction := None;
        if t == Like { likes := likes - 1; } else { dislikes := dislikes - 1; }
      } else {
        if userReaction.Some? {
          if userReaction.value == Like { likes := likes - 1; } else { dislikes := dislikes - 1; }
        }
        userReaction := Some(t);
        if t == Like { likes := likes + 1; } else { dislikes := dislikes + 1; }
      }
    }

    /** The text box's change handler. */
    method SetNewComment(text: string)
      modifies this
      ensures newComment == text && comments == old(comments)
      ensures ReactionState() == old(ReactionState()) && showComments == old(showComments)
    {
      newComment := text;
    }

    /** `handleComment`, with the clock's id and timestamp as parameters: a blank draft
        changes nothing; otherwise the draft, untrimmed, becomes a new comment by the
        default user in front of the existing ones, and the draft is cleared. The
        comments badge shows |comments|, so it grows by one exactly then. */
    method HandleComment(id: string, timestamp: int)
      modifies this
      ensures Blank(old(newComment)) ==>
        comments == old(comments) && newComment == old(newComment)
      ensures !Blank(old(newComment)) ==>
        |comments| == |old(comments)| + 1 && comments[1..] == old(comments) &&
        comments[0] == Comment(id, old(newComment), DefaultUsername, timestamp) &&
        newComment == ""
      ensures ReactionState() == old(ReactionState()) && showComments == old(showComments)
    {
      TrimEmptyIffBlank(newComment);
      if Trim(newComment) != "" {
        var comment := Comment(id, newComment, "Default User", timestamp);
        comments := [comment] + comments;
        newComment := "";
      }
    }

    /** The comments button flips `showComments`, a flag the page never reads, so the
        rendered thread does not change. */
    method ToggleComments()
      modifies this
      ensures showComments == !old(showComments)
      ensures comments == old(comments) && newComment == old(newComment)
      ensures ReactionState() == old(ReactionState())
    {
      showComments := !showComments;
    }
  }
}
