/**
 * The ball game driven alongside the controls: the ball runs along one of
 * three routes to the goal, the arrow keys move it to a neighbouring route,
 * the animation advances the curve parameter `t` each frame, and a ball that
 * meets a visible card on its route hides the card and counts it.
 *
 * The curve geometry (points on the Bezier routes, the closest parameter to
 * the ball, the bounding-box intersection) is taken as given: the closest
 * parameter arrives as a value in [0, 1] and the intersection test as one
 * boolean per card.
 */
module Game {
  import Orbit

  /** leftWingerRoute, centerForwardRoute, rightWingerRoute. */
  datatype Route = LeftWinger | CenterForward | RightWinger

  /** The card's `type`, 'yellow' or 'red'. */
  datatype Kind = Yellow | Red

  /** A card placed at parameter t on one route. */
  datatype Card = Card(route: Route, t: real, kind: Kind)

  /** A curve parameter; findClosestT only returns sample points of [0, 1]. */
  type Param = x: real | 0.0 <= x <= 1.0

  /** increment: the ball covers its route in 500 frames. */
  const Increment: real := 1.0 / 500.0

  /** How close, in curve parameter, a card must be for the collision test to run. */
  const Window: real := 0.01

  /** The routes from left to right, numbered 0, 1, 2. */
  function Lane(r: Route): nat {
    match r
    case LeftWinger => 0
    case CenterForward => 1
    case RightWinger => 2
  }

  /** The route switch of handle_keydown. */
  function NextRoute(r: Route, code: string): (next: Route)
    ensures code != "ArrowLeft" && code != "ArrowRight" ==> next == r
    ensures Lane(next) <= Lane(r) + 1 && Lane(r) <= Lane(next) + 1
    ensures code == "ArrowLeft" ==> Lane(next) <= Lane(r)
    ensures code == "ArrowRight" ==> Lane(next) >= Lane(r)
  {
    if code == "ArrowLeft" then
      (if r == CenterForward then LeftWinger else if r == RightWinger then CenterForward else r)
    else if code == "ArrowRight" then
      (if r == CenterForward then RightWinger else if r == LeftWinger then CenterForward else r)
    else r
  }

  /**
   * ArrowLeft moves one lane to the left and ArrowRight one lane to the
   * right, stopping at the outer routes; any other key keeps the route.
   */
  lemma NextRouteMovesOneLane(r: Route, code: string)
    ensures code == "ArrowLeft" ==> Lane(NextRoute(r, code)) == if Lane(r) == 0 then 0 else Lane(r) - 1
    ensures code == "ArrowRight" ==> Lane(NextRoute(r, code)) == if Lane(r) == 2 then 2 else Lane(r) + 1
    ensures code != "ArrowLeft" && code != "ArrowRight" ==> NextRoute(r, code) == r
  {
  }

  /** A step right undoes a step left unless the left step hit the edge, and the mirror. */
  lemma OppositeKeysUndo(r: Route)
    ensures r != LeftWinger ==> NextRoute(NextRoute(r, "ArrowLeft"), "ArrowRight") == r
    ensures r != RightWinger ==> NextRoute(NextRoute(r, "ArrowRight"), "ArrowLeft") == r
  {
  }

  /** One frame of the animation: t advances by the increment and wraps to 0 past 1. */
  function Tick(t: real): (next: real)
    ensures 0.0 <= t <= 1.0 ==> 0.0 <= next <= 1.0
    ensures next == 0.0 || next == t + Increment
  {
    if t + Increment > 1.0 then 0.0 else t + Increment
  }

  /** t after k frames. */
  function Ticks(t: real, k: nat): real {
    if k == 0 then t else Tick(Ticks(t, k - 1))
  }

  /** The animation keeps t in [0, 1]. */
  lemma TickStaysInUnitInterval(t: real)
    requires 0.0 <= t <= 1.0
    ensures 0.0 <= Tick(t) <= 1.0
    ensures Tick(t) == 0.0 <==> t + Increment > 1.0
  {
  }

  /** From the start, t is k increments after k frames, up to 1 after 500 frames. */
  lemma {:induction false} TicksFromZero(k: nat)
    requires k <= 500
    ensures Ticks(0.0, k) == k as real * Increment
  {
    if k > 0 {
      TicksFromZero(k - 1);
    }
  }

  /** Frame 501 wraps t back to 0: a lap from the start lasts 501 frames. */
  lemma LapLasts501Frames()
    ensures Ticks(0.0, 500) == 1.0 && Ticks(0.0, 501) == 0.0
    ensures forall k: nat :: 0 < k <= 500 ==> Ticks(0.0, k) > 0.0
  {
    TicksFromZero(500);
    forall k: nat | 0 < k <= 500
      ensures Ticks(0.0, k) > 0.0
    {
      TicksFromZero(k);
    }
  }

  /** Whether this frame's checkCollisions hides the card (given whether the boxes meet). */
  predicate Collides(c: Card, route: Route, t: real, visible: bool, hit: bool) {
    c.route == route && Orbit.Abs(c.t - t) < Window && visible && hit
  }

  /** The visibility of every card after checkCollisions. */
  function AfterCollisions(cards: seq<Card>, visible: seq<bool>, hits: seq<bool>, route: Route, t: real): (v: seq<bool>)
    requires |visible| == |cards| && |hits| == |cards|
    ensures |v| == |cards|
    ensures forall i :: 0 <= i < |cards| && v[i] ==> visible[i]
    ensures forall i :: 0 <= i < |cards| && (cards[i].route != route || !hits[i]) ==> v[i] == visible[i]
    ensures forall i :: 0 <= i < |cards| && Orbit.Abs(cards[i].t - t) >= Window ==> v[i] == visible[i]
    ensures forall i :: 0 <= i < |cards| && visible[i] && cards[i].route == route && Orbit.Abs(cards[i].t - t) < Window && hits[i] ==> !v[i]
  {
    seq(|cards|, i requires 0 <= i < |cards| => visible[i] && !Collides(cards[i], route, t, visible[i], hits[i]))
  }

  /** How many hidden cards are of this kind. */
  function HiddenCount(cards: seq<Card>, visible: seq<bool>, kind: Kind): nat
    requires |visible| == |cards|
  {
    if |cards| == 0 then 0
    else
      var n := |cards| - 1;
      HiddenCount(cards[..n], visible[..n], kind) + (if !visible[n] && cards[n].kind == kind then 1 else 0)
  }

  /** Hiding one card adds one to the count of its kind, if it was visible, and nothing else. */
  lemma {:induction false} HideOneCard(cards: seq<Card>, visible: seq<bool>, i: nat, kind: Kind)
    requires |visible| == |cards| && i < |cards|
    ensures HiddenCount(cards, visible[i := false], kind)
         == HiddenCount(cards, visible, kind) + (if visible[i] && cards[i].kind == kind then 1 else 0)
  {
    var n := |cards| - 1;
    if i < n {
      assert visible[i := false][..n] == visible[..n][i := false];
      HideOneCard(cards[..n], visible[..n], i, kind);
    } else {
      assert visible[i := false][..n] == visible[..n];
    }
  }

  /** Hiding more cards never lowers a count: the collision counters only grow. */
  lemma {:induction false} HiddenCountGrows(cards: seq<Card>, before: seq<bool>, after: seq<bool>, kind: Kind)
    requires |before| == |cards| && |after| == |cards|
    requires forall i :: 0 <= i < |cards| && !before[i] ==> !after[i]
    ensures HiddenCount(cards, after, kind) >= HiddenCount(cards, before, kind)
  {
    if |cards| > 0 {
      var n := |cards| - 1;
      HiddenCountGrows(cards[..n], before[..n], after[..n], kind);
    }
  }

  /** Once hidden, a card stays hidden, and checking twice hides nothing more. */
  lemma CollisionsAreIdempotent(cards: seq<Card>, visible: seq<bool>, hits: seq<bool>, route: Route, t: real)
    requires |visible| == |cards| && |hits| == |cards|
    ensures var v := AfterCollisions(cards, visible, hits, route, t);
      && (forall i :: 0 <= i < |cards| && !visible[i] ==> !v[i])
      && AfterCollisions(cards, v, hits, route, t) == v
  {
  }

  /**
   * The ball's run: the current route, the curve parameter, the cards (sorted
   * by t, fixed once placed), which of them are still visible, and the
   * collision counters.
   */
  class Round {
    var route: Route
    var t: real
    const cards: seq<Card>
    var visible: seq<bool>
    var yellowCardCollisions: nat
    var redCardCollisions: nat

    /** Every counted card is hidden, every hidden card was counted once, and t is in [0, 1]. */
    predicate Valid()
      reads this
    {
      && |visible| == |cards|
      && yellowCardCollisions == HiddenCount(cards, visible, Yellow)
      && redCardCollisions == HiddenCount(cards, visible, Red)
      && 0.0 <= t <= 1.0
    }

    /** The start of the game: centre route, t = 0, the six cards visible, no collisions. */
    constructor ()
      ensures Valid()
      ensures route == CenterForward && t == 0.0
      ensures cards == [Card(RightWinger, 0.2, Yellow), Card(LeftWinger, 0.25, Yellow), Card(CenterForward, 0.3, Red),
                        Card(RightWinger, 0.5, Yellow), Card(LeftWinger, 0.55, Yellow), Card(CenterForward, 0.6, Red)]
      ensures visible == [true, true, true, true, true, true]
      ensures yellowCardCollisions == 0 && redCardCollisions == 0
    {
      route := CenterForward;
      t := 0.0;
      cards := [Card(RightWinger, 0.2, Yellow), Card(LeftWinger, 0.25, Yellow), Card(CenterForward, 0.3, Red),
                Card(RightWinger, 0.5, Yellow), Card(LeftWinger, 0.55, Yellow), Card(CenterForward, 0.6, Red)];
      visible := [true, true, true, true, true, true];
      yellowCardCollisions, redCardCollisions := 0, 0;
      new;
      NothingHiddenCountsZero(cards, visible, Yellow);
      NothingHiddenCountsZero(cards, visible, Red);
    }

    /**
     * handle_keydown: switch route by the arrow key and move t to the
     * parameter closest to the ball on the route it was on.
     */
    method HandleKeydown(code: string, closestT: Param)
      requires Valid()
      modifies this`route, this`t
      ensures Valid()
      ensures route == NextRoute(old(route), code) && t == closestT
    {
      if code == "ArrowLeft" {
        if route == CenterForward {
          route := LeftWinger;
        } else if route == RightWinger {
          route := CenterForward;
        }
      } else if code == "ArrowRight" {
        if route == CenterForward {
          route := RightWinger;
        } else if route == LeftWinger {
          route := CenterForward;
        }
      }
      t := closestT;
    }

    /** The t step of animate(); `lapDone` says the final score is shown. */
    method Advance() returns (lapDone: bool)
      requires Valid()
      modifies this`t
      ensures Valid()
      ensures t == Tick(old(t))
      ensures lapDone == (old(t) + Increment > 1.0)
    {
      t := t + Increment;
      lapDone := false;
      if t > 1.0 {
        t := 0.0;
        lapDone := true;
      }
    }

    /**
     * checkCollisions: every visible card on the current route within the
     * window around t whose box meets the ball's (hits[i]) is hidden and
     * counted by its kind.
     */
    method CheckCollisions(hits: seq<bool>)
      requires Valid() && |hits| == |cards|
      modifies this`visible, this`yellowCardCollisions, this`redCardCollisions
      ensures Valid()
      ensures visible == AfterCollisions(cards, old(visible), hits, route, t)
    {
      ghost var v0 := visible;
      var i := 0;
      while i < |cards|
        invariant 0 <= i <= |cards| && |visible| == |cards|
        invariant forall j :: 0 <= j < i ==> visible[j] == AfterCollisions(cards, v0, hits, route, t)[j]
        invariant forall j :: i <= j < |cards| ==> visible[j] == v0[j]
        invariant yellowCardCollisions == HiddenCount(cards, visible, Yellow)
        invariant redCardCollisions == HiddenCount(cards, visible, Red)
      {
        var card := cards[i];
        if card.route == route && Orbit.Abs(card.t - t) < Window && visible[i] {
          if hits[i] {
            HideOneCard(cards, visible, i, Yellow);
            HideOneCard(cards, visible, i, Red);
            visible := visible[i := false];
            match card.kind {
              case Yellow => yellowCardCollisions := yellowCardCollisions + 1;
              case Red => redCardCollisions := redCardCollisions + 1;
            }
          }
        }
        i := i + 1;
      }
    }

    /** One frame of animate(): advance t, then check for collisions at the new t. */
    method Animate(hits: seq<bool>) returns (lapDone: bool)
      requires Valid() && |hits| == |cards|
      modifies this`t, this`visible, this`yellowCardCollisions, this`redCardCollisions
      ensures Valid()
      ensures t == Tick(old(t)) && lapDone == (old(t) + Increment > 1.0)
      ensures visible == AfterCollisions(cards, old(visible), hits, route, t)
    {
      lapDone := Advance();
      CheckCollisions(hits);
    }
  }

  /** With every card visible, no card of any kind is counted. */
  lemma {:induction false} NothingHiddenCountsZero(cards: seq<Card>, visible: seq<bool>, kind: Kind)
    requires |visible| == |cards| && forall i :: 0 <= i < |visible| ==> visible[i]
    ensures HiddenCount(cards, visible, kind) == 0
  {
    if |cards| > 0 {
      NothingHiddenCountsZero(cards[..|cards| - 1], visible[..|cards| - 1], kind);
    }
  }
}
