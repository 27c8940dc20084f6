/** The overlapping avatar row (components/UserAvatarStack.tsx): the first
    `maxVisible` users are drawn left to right, each above the next, and a
    "+N" badge at the bottom of the stack counts the rest. */
module AvatarStack {
  import opened Seqs
  import opened Text

  /** The avatar row's user shape. */
  datatype AvatarUser = AvatarUser(
    userId: string,
    username: string,
    displayName: string,
    avatar: string)

  const DEFAULT_MAX_VISIBLE: int := 3

  /** The z-index of the badge. */
  const BADGE_Z_INDEX: int := 0

  /** `users.slice(0, maxVisible)`. */
  function VisibleUsers(users: seq<AvatarUser>, maxVisible: int := DEFAULT_MAX_VISIBLE): (r: seq<AvatarUser>)
    ensures r <= users
    ensures maxVisible >= 0 ==> |r| == if maxVisible < |users| then maxVisible else |users|
  {
    SliceTo(users, maxVisible)
  }

  /** `users.length - maxVisible`; negative when there is room to spare. */
  function RemainingCount(users: seq<AvatarUser>, maxVisible: int := DEFAULT_MAX_VISIBLE): (n: int)
    ensures maxVisible >= 0 ==> |VisibleUsers(users, maxVisible)| + (if n > 0 then n else 0) == |users|
  {
    |users| - maxVisible
  }

  /** The badge is drawn only when some users are hidden. */
  predicate ShowsBadge(users: seq<AvatarUser>, maxVisible: int := DEFAULT_MAX_VISIBLE)
  {
    RemainingCount(users, maxVisible) > 0
  }

  /** The badge text, "+N". */
  function BadgeText(users: seq<AvatarUser>, maxVisible: int := DEFAULT_MAX_VISIBLE): (s: string)
    requires ShowsBadge(users, maxVisible)
    ensures |s| >= 2 && s[0] == '+' && IsDigits(s[1..])
    ensures DigitsValue(s[1..]) == RemainingCount(users, maxVisible)
  {
    var n: nat := RemainingCount(users, maxVisible);
    NatToStringRoundTrip(n);
    assert ("+" + NatToString(n))[1..] == NatToString(n);
    "+" + NatToString(n)
  }

  /** With a non-negative limit, no user is hidden without a badge and no
      badge counts users that are visible. */
  lemma BadgeIffHidden(users: seq<AvatarUser>, maxVisible: int)
    requires maxVisible >= 0
    ensures ShowsBadge(users, maxVisible) <==> |VisibleUsers(users, maxVisible)| < |users|
  {
  }

  /** The z-indices of the visible avatars, left to right: `|visible| - i`. */
  function ZIndices(users: seq<AvatarUser>, maxVisible: int := DEFAULT_MAX_VISIBLE): (z: seq<int>)
    ensures |z| == |VisibleUsers(users, maxVisible)|
    ensures forall i, j :: 0 <= i < j < |z| ==> z[i] > z[j]
    ensures forall i :: 0 <= i < |z| ==> z[i] >= 1 && z[i] > BADGE_Z_INDEX
    ensures |z| > 0 ==> z[|z| - 1] == 1 && z[0] == |z|
  {
    var n := |VisibleUsers(users, maxVisible)|;
    seq(n, i requires 0 <= i < n => n - i)
  }

  /** The name shown for an avatar: the display name unless it is empty. */
  function AvatarLabel(u: AvatarUser): (s: string)
    ensures s == u.displayName || s == u.username
    ensures u.displayName != "" ==> s == u.displayName
    ensures u.displayName == "" ==> s == u.username
  {
    if u.displayName != "" then u.displayName else u.username
  }
}
