/**
 * A listing's card in the feed (src/components/feed/ListingCard.tsx): the
 * price text, the likes badge, the heart button wired to the likes hook, and
 * the video player that receives the card's visibility.
 */
module Card {
  import opened Wrappers
  import opened Text
  import FeedPages
  import Likes
  import Player

  /** The euro sign the price text starts with. */
  const Euro: char := '\U{20AC}'

  /** The two digits after the decimal point of a whole number of cents. */
  function Cents2(a: nat): string {
    [DigitChar(a % 100 / 10), DigitChar(a % 10)]
  }

  /**
   * `formatPrice`: the euro sign, then the amount in euros with exactly two
   * decimals, as `toFixed(2)` writes a whole number of cents divided by 100.
   */
  function FormatPrice(priceInCents: int): string {
    var a: nat := if priceInCents < 0 then -priceInCents else priceInCents;
    [Euro] + (if priceInCents < 0 then "-" else "") + DecimalDigits(a / 100) + "." + Cents2(a)
  }

  /** Reads an amount `<euros>.<two digits>` back into cents. */
  function ParseAmount(digits: string): Option<nat> {
    if |digits| < 4 || digits[|digits| - 3] != '.' then None
    else if !IsDigit(digits[|digits| - 2]) || !IsDigit(digits[|digits| - 1]) then None
    else match ParseDigits(digits[..|digits| - 3])
      case None => None
      case Some(euros) => Some(100 * euros + 10 * DigitValue(digits[|digits| - 2]) + DigitValue(digits[|digits| - 1]))
  }

  /** Reads a price text back into cents; the partner of `FormatPrice`. */
  function ParsePrice(s: string): Option<int> {
    if |s| < 1 || s[0] != Euro then None
    else
      var body := s[1..];
      var negative := |body| > 0 && body[0] == '-';
      match ParseAmount(if negative then body[1..] else body)
      case None => None
      case Some(v) =>
        var cents: int := if negative then -(v as int) else v;
        Some(cents)
  }

  /** Splitting a number into its last decimal digit and the rest. */
  lemma LastDigit(x: nat, u: nat)
    requires u < 10
    ensures (10 * x + u) / 10 == x && (10 * x + u) % 10 == u
  {
  }

  /** Tens and units of the cents: the two decimals denote `a % 100`. */
  lemma Cents2Value(a: nat)
    ensures IsDigit(Cents2(a)[0]) && IsDigit(Cents2(a)[1])
    ensures 100 * (a / 100) + 10 * DigitValue(Cents2(a)[0]) + DigitValue(Cents2(a)[1]) == a
  {
    var q, r := a / 100, a % 100;
    var t, u := r / 10, r % 10;
    assert a == 100 * q + r;
    assert r == 10 * t + u;
    assert a == 10 * (10 * q + t) + u;
    LastDigit(10 * q + t, u);
    assert DigitValue(Cents2(a)[0]) == t;
    assert DigitValue(Cents2(a)[1]) == u;
  }

  /** An amount text is its euro digits, a point and two digits. */
  lemma ParseAmountOf(whole: string, c0: char, c1: char)
    requires ParseDigits(whole).Some? && IsDigit(c0) && IsDigit(c1)
    ensures ParseAmount(whole + ['.', c0, c1]) == Some(100 * ParseDigits(whole).value + 10 * DigitValue(c0) + DigitValue(c1))
  {
    var digits := whole + ['.', c0, c1];
    assert digits[..|digits| - 3] == whole;
  }

  /** The amount text of `a` cents reads back as `a`. */
  lemma AmountRoundTrip(a: nat)
    ensures ParseAmount(DecimalDigits(a / 100) + "." + Cents2(a)) == Some(a)
  {
    var whole := DecimalDigits(a / 100);
    var cents := Cents2(a);
    assert whole + "." + cents == whole + ['.', cents[0], cents[1]];
    DecimalDigitsRoundTrip(a / 100);
    Cents2Value(a);
    ParseAmountOf(whole, cents[0], cents[1]);
  }

  /** A price text is the euro sign, an optional minus and an amount text. */
  lemma ParsePriceOf(negative: bool, digits: string, v: nat)
    requires ParseAmount(digits) == Some(v) && digits[0] != '-'
    ensures ParsePrice([Euro] + (if negative then "-" else "") + digits) == Some(if negative then -(v as int) else v)
  {
    var s := [Euro] + (if negative then "-" else "") + digits;
    if negative {
      assert s[1..] == "-" + digits;
      assert s[1..][1..] == digits;
    } else {
      assert s[1..] == digits;
    }
  }

  /** The price text determines the price: reading it back gives the cents it was made from. */
  lemma FormatPriceRoundTrip(priceInCents: int)
    ensures ParsePrice(FormatPrice(priceInCents)) == Some(priceInCents)
  {
    var a: nat := if priceInCents < 0 then -priceInCents else priceInCents;
    var whole := DecimalDigits(a / 100);
    var digits := whole + "." + Cents2(a);
    AmountRoundTrip(a);
    assert digits[0] == whole[0];
    assert FormatPrice(priceInCents) == [Euro] + (if priceInCents < 0 then "-" else "") + digits;
    ParsePriceOf(priceInCents < 0, digits, a);
  }

  /** Two prices the card shows. */
  lemma FormatPriceExamples()
    ensures FormatPrice(2500) == [Euro] + "25.00"
    ensures FormatPrice(1005) == [Euro] + "10.05"
    ensures FormatPrice(99) == [Euro] + "0.99"
  {
    assert DecimalDigits(25) == "25";
    assert DecimalDigits(10) == "10";
  }

  /** The likes badge: shown only for a positive count, with the count and `like` or `likes`. */
  function LikesBadge(likesCount: int): (badge: Option<string>)
    ensures badge.Some? <==> likesCount > 0
  {
    if likesCount > 0 then
      Some(DecimalDigits(likesCount) + " " + (if likesCount == 1 then "like" else "likes"))
    else None
  }

  /** The badge reads back as the count, and the noun is singular exactly for one like. */
  lemma LikesBadgeText(likesCount: int)
    requires likesCount > 0
    ensures var text := LikesBadge(likesCount).value;
            var n := |DecimalDigits(likesCount)|;
            ParseDigits(text[..n]) == Some(likesCount) && text[n] == ' ' &&
            (text[n + 1..] == "like" <==> likesCount == 1)
  {
    var text := LikesBadge(likesCount).value;
    var n := |DecimalDigits(likesCount)|;
    assert text[..n] == DecimalDigits(likesCount);
    DecimalDigitsRoundTrip(likesCount);
    if likesCount == 1 {
      assert text[n + 1..] == "like";
    } else {
      assert text[n + 1..] == "likes";
    }
  }

  /** The heart button as rendered: filled and red exactly when liked, disabled while toggling. */
  datatype HeartButton = HeartButton(filled: bool, red: bool, disabled: bool)

  function Heart(isLiked: bool, isToggling: bool): (h: HeartButton)
    ensures h.filled <==> isLiked
    ensures h.red <==> isLiked
    ensures h.disabled <==> isToggling
  {
    HeartButton(isLiked, isLiked, isToggling)
  }

  /** A mounted card: its listing, the likes hook, the player and the clicks it passed to `onCardClick`. */
  class ListingCard {
    const listing: FeedPages.Listing
    const likes: Likes.LikeCache
    const player: Player.VideoPlayer
    var cardClicks: nat

    ghost predicate Valid()
      reads this, likes, player
    {
      likes.Valid() && player.Valid() && likes.listingId == listing.id
    }

    constructor (listing: FeedPages.Listing, likes: Likes.LikeCache, player: Player.VideoPlayer)
      requires likes.Valid() && player.Valid() && likes.listingId == listing.id
      ensures Valid()
      ensures this.listing == listing && this.likes == likes && this.player == player && cardClicks == 0
    {
      this.listing, this.likes, this.player := listing, likes, player;
      cardClicks := 0;
    }

    /** The button as rendered now. */
    function HeartNow(): HeartButton
      reads this, likes
    {
      Heart(likes.isLiked, likes.IsToggling())
    }

    /**
     * `handleLikeClick`: a click on an enabled heart starts the toggle; a
     * disabled one does nothing. Either way the click never reaches the card.
     */
    method HandleLikeClick() returns (call: Option<Likes.RemoteCall>)
      requires Valid()
      modifies likes`pending
      ensures Valid()
      ensures cardClicks == old(cardClicks) && likes.errorToasts == old(likes.errorToasts)
      ensures old(HeartNow().disabled) ==> call.None? && likes.pending && likes.isLiked == old(likes.isLiked)
      ensures !old(HeartNow().disabled) ==> likes.pending
      ensures !old(HeartNow().disabled) ==> call == Likes.MutationFn(listing.id, likes.user, old(likes.isLiked), None).call
      ensures likes.isLiked == old(likes.isLiked) && likes.likesCount == old(likes.likesCount)
    {
      if likes.IsToggling() {
        call := None;
      } else {
        call := likes.Mutate();
      }
    }

    /** A click anywhere else on the card reaches `onCardClick`. */
    method ClickCard()
      modifies this`cardClicks
      ensures cardClicks == old(cardClicks) + 1
    {
      cardClicks := cardClicks + 1;
    }

    /**
     * A re-render with a new `isVisible`, handed unchanged to the player: a
     * change to visible plays (when `play()` resolves), a change to hidden
     * pauses, and no change leaves the player as it was.
     */
    method SetVisible(isVisible: bool, playAllowed: bool)
      requires Valid()
      modifies player`isVisible, player`isPlaying, player`elementPlaying
      ensures Valid()
      ensures player.isVisible == isVisible && player.showControls == old(player.showControls)
      ensures isVisible == old(player.isVisible) || !player.hasVideo ==> player.isPlaying == old(player.isPlaying)
      ensures isVisible != old(player.isVisible) && player.hasVideo && isVisible ==>
                player.isPlaying == (old(player.isPlaying) || playAllowed)
      ensures isVisible != old(player.isVisible) && player.hasVideo && !isVisible ==> !player.isPlaying
    {
      player.SetVisible(isVisible, playAllowed);
    }
  }
}
