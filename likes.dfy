/**
 * Likes of one listing (src/hooks/useListingLikes.ts): the two queries that
 * read the like status and the count, the toggle mutation, and the cache
 * entries its success handler overwrites. Nothing is written before the remote
 * call succeeds, and nothing is written when it fails.
 */
module Likes {
  import opened Wrappers

  /** The message the mutation fails with when nobody is logged in. */
  const MustBeLoggedIn: string := "Must be logged in to like items"

  /**
   * The like-status query: `false` without a user (the query is disabled and
   * its data defaults to `false`), `false` on a remote error, and otherwise
   * whether a like row of this user exists.
   */
  function LikeStatus(user: Option<string>, rowFound: Result<bool, string>): (liked: bool)
    ensures liked <==> user.Some? && rowFound == Ok(true)
  {
    if user.None? then false
    else if rowFound.Err? then false
    else rowFound.value
  }

  /** The likes-count query: the exact count, and 0 when the count is `null` or the query failed. */
  function LikesCount(response: Result<Option<nat>, string>): (count: nat)
    ensures response.Ok? && response.value.Some? ==> count == response.value.value
    ensures response.Err? || response == Ok(None) ==> count == 0
  {
    match response
    case Ok(Some(n)) => n
    case Ok(None) => 0
    case Err(_) => 0
  }

  /** The write the mutation sends to the `likes` table. */
  datatype RemoteCall = DeleteLike(listingId: string, userId: string) | InsertLike(listingId: string, userId: string)

  /** One run of `mutationFn`: the write it issued, if any, and its result (the new like status, or the error). */
  datatype Attempt = Attempt(call: Option<RemoteCall>, result: Result<bool, string>)

  /**
   * `mutationFn`: without a user it fails before any write; otherwise it deletes
   * the user's like when `isLiked` and inserts one when not, and yields the
   * negation of `isLiked` unless the write fails.
   */
  function MutationFn(listingId: string, user: Option<string>, isLiked: bool, remoteError: Option<string>): (a: Attempt)
    ensures user.None? <==> a.call.None?
    ensures user.None? ==> a.result == Err(MustBeLoggedIn)
    ensures user.Some? ==> a.call == Some(if isLiked then DeleteLike(listingId, user.value) else InsertLike(listingId, user.value))
    ensures user.Some? ==> a.result == if remoteError.Some? then Err(remoteError.value) else Ok(!isLiked)
  {
    if user.None? then Attempt(None, Err(MustBeLoggedIn))
    else
      var call := if isLiked then DeleteLike(listingId, user.value) else InsertLike(listingId, user.value);
      Attempt(Some(call), if remoteError.Some? then Err(remoteError.value) else Ok(!isLiked))
  }

  /** The count `onSuccess` stores: one more after a like, one fewer after an unlike but never below 0. */
  function CountAfter(oldCount: int, newLikeStatus: bool): int {
    if newLikeStatus then oldCount + 1
    else if oldCount - 1 > 0 then oldCount - 1 else 0
  }

  /** A stored count that was not negative stays not negative, whatever the toggle's result. */
  lemma CountAfterNeverNegative(oldCount: int, newLikeStatus: bool)
    requires oldCount >= 0
    ensures CountAfter(oldCount, newLikeStatus) >= 0
    ensures newLikeStatus ==> CountAfter(oldCount, newLikeStatus) == oldCount + 1
    ensures !newLikeStatus && oldCount > 0 ==> CountAfter(oldCount, newLikeStatus) == oldCount - 1
    ensures !newLikeStatus && oldCount == 0 ==> CountAfter(oldCount, newLikeStatus) == 0
  {
  }

  /** What a successful write does to the set of users who like the listing. */
  function Applied(likers: set<string>, call: RemoteCall): set<string> {
    match call
    case DeleteLike(_, userId) => likers - {userId}
    case InsertLike(_, userId) => likers + {userId}
  }

  /**
   * When the cached status and count agree with the table (the user's like is
   * there exactly when `isLiked`, the count is the number of likers), a
   * successful toggle leaves them agreeing with the table after its write; a
   * failed one issues no write that took effect and the cache is not touched.
   */
  lemma ToggleKeepsCacheInStep(listingId: string, userId: string, likers: set<string>, isLiked: bool,
                               count: int, remoteError: Option<string>)
    requires isLiked <==> userId in likers
    requires count == |likers|
    ensures var a := MutationFn(listingId, Some(userId), isLiked, remoteError);
            a.result.Ok? ==>
              var after := Applied(likers, a.call.value);
              (a.result.value <==> userId in after) && CountAfter(count, a.result.value) == |after|
  {
    var a := MutationFn(listingId, Some(userId), isLiked, remoteError);
    if a.result.Ok? {
      if isLiked {
        assert likers == (likers - {userId}) + {userId};
        assert |likers| == |likers - {userId}| + 1;
      } else {
        assert |likers + {userId}| == |likers| + 1;
      }
    }
  }

  /**
   * The hook's cache for one listing and one user: the like status, the count,
   * `isPending` of the toggle mutation, and the error toasts raised so far.
   */
  class LikeCache {
    const listingId: string
    const user: Option<string>
    var isLiked: bool
    var likesCount: int
    var pending: bool
    var errorToasts: nat

    /** The count is never negative, and nobody is shown as liking without a user. */
    ghost predicate Valid()
      reads this
    {
      likesCount >= 0 && (user.None? ==> !isLiked)
    }

    /** `isToggling`. */
    predicate IsToggling()
      reads this
    {
      pending
    }

    /** The hook once both queries have answered. */
    constructor (listingId: string, user: Option<string>, rowFound: Result<bool, string>, countResponse: Result<Option<nat>, string>)
      ensures Valid()
      ensures this.listingId == listingId && this.user == user
      ensures isLiked == LikeStatus(user, rowFound) && likesCount == LikesCount(countResponse)
      ensures !pending && errorToasts == 0
    {
      this.listingId, this.user := listingId, user;
      isLiked := LikeStatus(user, rowFound);
      likesCount := LikesCount(countResponse);
      pending, errorToasts := false, 0;
    }

    /**
     * `toggleLike()`: the mutation starts and is pending; it reports the write it
     * issues. Nothing in the cache changes yet.
     */
    method Mutate() returns (call: Option<RemoteCall>)
      requires Valid() && !pending
      modifies this`pending
      ensures Valid() && pending
      ensures call == MutationFn(listingId, user, isLiked, None).call
      ensures isLiked == old(isLiked) && likesCount == old(likesCount) && errorToasts == old(errorToasts)
    {
      call := MutationFn(listingId, user, isLiked, None).call;
      pending := true;
    }

    /**
     * The pending mutation settles with the remote outcome. On success
     * (`onSuccess`) the status becomes the returned value and the count moves by
     * one, clamped at 0; on failure (`onError`) only an error toast is raised.
     */
    method Settle(remoteError: Option<string>) returns (result: Result<bool, string>)
      requires Valid() && pending
      modifies this`isLiked, this`likesCount, this`pending, this`errorToasts
      ensures Valid() && !pending
      ensures result == MutationFn(listingId, user, old(isLiked), remoteError).result
      ensures result.Ok? ==> isLiked == result.value && likesCount == CountAfter(old(likesCount), result.value)
      ensures result.Ok? ==> errorToasts == old(errorToasts)
      ensures result.Err? ==> isLiked == old(isLiked) && likesCount == old(likesCount)
      ensures result.Err? ==> errorToasts == old(errorToasts) + 1
    {
      result := MutationFn(listingId, user, isLiked, remoteError).result;
      if result.Ok? {
        isLiked := result.value;
        likesCount := CountAfter(likesCount, result.value);
      } else {
        errorToasts := errorToasts + 1;
      }
      pending := false;
    }
  }
}
