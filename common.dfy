/** Small helpers shared by the component models. */
module Common {

  datatype Option<T> = None | Some(value: T)

  /** The site's palette (`modernColors`), shared by several components. */
  const Accent := "#00D4FF"
  const Secondary := "#8B5CF6"
  const SuccessColor := "#10B981"
  const Warning := "#F59E0B"
  const Danger := "#EF4444"

  function Min(a: int, b: int): int
  {
    if a <= b then a else b
  }

  /** What a list of chips looks like after `items.slice(0, limit)` and the
      optional "+k" badge that follows it when `items.length > limit`. */
  datatype Preview<T> = Preview(shown: seq<T>, badge: Option<nat>)

  /** The number the badge reports, or 0 when no badge is drawn. */
  function BadgeCount<T>(p: Preview<T>): nat
  {
    match p.badge
    case Some(k) => k
    case None => 0
  }

  /** JavaScript's `s.slice(0, limit)` for a non-negative limit. */
  function Prefix<T>(s: seq<T>, limit: nat): (r: seq<T>)
    ensures |r| == Min(|s|, limit)
    ensures forall i :: 0 <= i < |r| ==> r[i] == s[i]
  {
    s[..Min(|s|, limit)]
  }

  /** The first `limit` items, and a badge with the number of the rest exactly
      when there is a rest. */
  function Truncate<T>(items: seq<T>, limit: nat): (p: Preview<T>)
    ensures p.shown == Prefix(items, limit)
    ensures p.badge.Some? <==> |items| > limit
  {
    Preview(Prefix(items, limit), if |items| > limit then Some(|items| - limit) else None)
  }

  /** Nothing is lost: the chips shown followed by the ones held back are the
      whole list, and the badge counts exactly the ones held back. */
  lemma TruncateAccountsForAll<T>(items: seq<T>, limit: nat)
    ensures var p := Truncate(items, limit);
      p.shown + items[|p.shown|..] == items && BadgeCount(p) == |items| - |p.shown|
  {
    var p := Truncate(items, limit);
    assert items[..|p.shown|] == p.shown;
  }

  /** A list no longer than the limit is shown whole and without a badge. */
  lemma TruncateShortIsWhole<T>(items: seq<T>, limit: nat)
    requires |items| <= limit
    ensures Truncate(items, limit) == Preview(items, None)
  {
    assert items[..|items|] == items;
  }
}
