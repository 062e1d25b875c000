/** The chat-style reverse window: pages are counted from the newest message
    backwards, so `offset` messages at the end are already shown and the page
    is the `limit` messages just before them. The arithmetic saturates at zero
    instead of underflowing. */
module SessionWindow {
  import opened Seqs

  datatype ChatWindow = ChatWindow(remaining: nat, toLoad: nat, start: nat, end: nat)

  /** `total - already_loaded`, or 0 once everything is loaded. */
  function Remaining(total: nat, offset: nat): (r: nat)
    ensures r + offset >= total && r <= total
    ensures offset < total ==> r + offset == total
  {
    if total > offset then total - offset else 0
  }

  /** The window `[start, end)` of the page that skips the `offset` newest
      messages. */
  function ChatWindowOf(total: nat, offset: nat, limit: nat): (w: ChatWindow)
    ensures w.remaining == Remaining(total, offset) && w.toLoad == Min(limit, w.remaining)
    ensures w.start <= w.end <= total
    ensures w.end - w.start == w.toLoad
    ensures offset < total ==> w.end == total - offset
    ensures offset >= total ==> w.remaining == 0 && w.toLoad == 0 && w.start == 0 && w.end == 0
  {
    var remaining := Remaining(total, offset);
    var toLoad := Min(limit, remaining);
    var start := if total > offset + toLoad then total - offset - toLoad else 0;
    var end := if total > offset then total - offset else 0;
    ChatWindow(remaining, toLoad, start, end)
  }

  /** Without any risk of underflow the saturating formulas are the plain
      differences the first test writes. */
  lemma SaturationUnused(total: nat, offset: nat, limit: nat)
    requires offset + limit <= total
    ensures var w := ChatWindowOf(total, offset, limit);
      w.start == total - offset - limit && w.end == total - offset && w.toLoad == limit
  {
  }

  /** The next page ends where this one starts, so pages walk backwards
      without gaps or overlap. */
  lemma PagesWalkBackward(total: nat, offset: nat, limit: nat)
    requires offset < total
    ensures var w := ChatWindowOf(total, offset, limit);
      var next := ChatWindowOf(total, offset + w.toLoad, limit);
      next.end == w.start
  {
  }

  /** The page is the slice of the messages just before the `offset` newest. */
  lemma PageIsSlice<A>(messages: seq<A>, offset: nat, limit: nat)
    requires offset < |messages|
    ensures var w := ChatWindowOf(|messages|, offset, limit);
      messages[w.start..w.end] + messages[|messages| - offset..] == messages[w.start..]
  {
  }

  lemma FirstPage()
    ensures ChatWindowOf(200, 0, 20) == ChatWindow(200, 20, 180, 200)
  {
  }

  lemma PageAfterOneHundredTwenty()
    ensures ChatWindowOf(300, 120, 20) == ChatWindow(180, 20, 160, 180)
  {
  }

  lemma BoundaryPages()
    ensures ChatWindowOf(150, 140, 20).toLoad == 10 && ChatWindowOf(150, 140, 20).remaining == 10
    ensures ChatWindowOf(150, 150, 20).remaining == 0
  {
  }

  lemma OffsetPastTotal()
    ensures ChatWindowOf(50, 100, 20).remaining == 0
  {
  }

  lemma ChatStyleOrder()
    ensures ChatWindowOf(100, 0, 20).start == 80 && ChatWindowOf(100, 0, 20).end == 100
    ensures ChatWindowOf(100, 20, 20).start == 60 && ChatWindowOf(100, 20, 20).end == 80
  {
  }
}
