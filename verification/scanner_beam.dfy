/** The scanner beam and what it does to the cards passing under it: the
    overlap test against the 4-pixel beam, the two clip percentages that split
    a card into its normal and its "encoded" layer, the `scanned` flag that
    starts at most one scramble per pass, and the ten-tick scramble itself. */
module ScannerBeam {
  import opened ScannerCode
  import ScannerMotion
  import opened Arith

  /** Width of the beam, in pixels. */
  const BeamWidth: real := 4.0

  /** Ticks of placeholder noise a scramble shows before the original text returns. */
  const MaxScrambles: nat := 10

  /** The horizontal extent of the beam, relative to the container's left edge. */
  datatype Beam = Beam(left: real, right: real)

  /** The beam of a container `width` pixels wide: 4 pixels centred 60 pixels
      left of the middle. */
  function BeamOf(width: real): (b: Beam)
    ensures b.right - b.left == BeamWidth
    ensures (b.left + b.right) / 2.0 == width / 2.0 - 60.0
  {
    var x := width / 2.0 - 60.0;
    Beam(x - BeamWidth / 2.0, x + BeamWidth / 2.0)
  }

  /** Left edge of card `i` on screen: its place in the strip plus the strip's offset. */
  function CardLeft(i: nat, gap: real, position: real): (l: real)
    ensures i == 0 ==> l == position
  {
    i as real * (ScannerMotion.CardWidth + gap) + position
  }

  /** Later cards lie further right, at least one card and one gap apart. */
  lemma CardsSpaced(i: nat, j: nat, gap: real, position: real)
    requires i < j && 0.0 <= gap
    ensures CardLeft(i, gap, position) + ScannerMotion.CardWidth + gap <= CardLeft(j, gap, position)
  {
    var w := ScannerMotion.CardWidth + gap;
    var d := (j - i) as real;
    assert j as real * w == i as real * w + w * d;
    ScannerMotion.MulLeft(w, 1.0, d);
    assert w <= w * d;
  }

  /** The card whose left edge is at `left` is under the beam. */
  predicate Overlaps(left: real, beam: Beam)
  {
    left < beam.right && left + ScannerMotion.CardWidth > beam.left
  }

  /** The point `x` lies strictly between `lo` and `hi`. */
  predicate Covers(lo: real, hi: real, x: real) { lo < x < hi }

  /** A card overlaps a beam of positive width exactly when some point lies
      strictly inside both the card and the beam. */
  lemma OverlapsIsIntersection(left: real, beam: Beam)
    requires beam.left < beam.right
    ensures Overlaps(left, beam) <==>
            exists x :: Covers(left, left + ScannerMotion.CardWidth, x) && Covers(beam.left, beam.right, x)
  {
    if Overlaps(left, beam) {
      var x := (Max(left, beam.left) + Min(left + ScannerMotion.CardWidth, beam.right)) / 2.0;
      assert Covers(left, left + ScannerMotion.CardWidth, x) && Covers(beam.left, beam.right, x);
    }
  }

  /** With a gap at least as wide as the beam, no two cards are under the
      beam at once. */
  lemma OneUnderBeam(i: nat, j: nat, gap: real, position: real, width: real)
    requires i != j && BeamWidth <= gap
    ensures !(Overlaps(CardLeft(i, gap, position), BeamOf(width)) && Overlaps(CardLeft(j, gap, position), BeamOf(width)))
  {
    if i < j {
      CardsSpaced(i, j, gap, position);
    } else {
      CardsSpaced(j, i, gap, position);
    }
  }

  /** The two clip percentages: `right` is `--clip-right` of the normal layer
      (how much of it, from the left, is hidden) and `left` is `--clip-left`
      of the encoded layer (how much of it, from the left, is shown). */
  datatype Clip = Clip(right: real, left: real)

  /** The clip of a card under the beam: the normal layer is hidden up to the
      beam's left edge, the encoded layer shown up to its right edge. */
  function OverlapClip(left: real, beam: Beam): (c: Clip)
    requires Overlaps(left, beam) && beam.left <= beam.right
    ensures 0.0 <= c.right <= c.left <= 100.0
    ensures beam.left < beam.right ==> c.right < c.left
    ensures 0.0 < c.left && c.right < 100.0
    ensures left >= beam.left ==> c.right == 0.0
    ensures left + ScannerMotion.CardWidth <= beam.right ==> c.left == 100.0
  {
    var intersectLeft := Max(beam.left - left, 0.0);
    var intersectRight := Min(beam.right - left, ScannerMotion.CardWidth);
    Clip(intersectLeft / ScannerMotion.CardWidth * 100.0, intersectRight / ScannerMotion.CardWidth * 100.0)
  }

  /** The clip as the frame update computes it: a card that is not under the
      beam gets 100%/100% only when its right edge is strictly left of the
      beam, and 0%/0% otherwise. */
  function ClipAsWritten(left: real, beam: Beam): (c: Clip)
    requires beam.left <= beam.right
    ensures Overlaps(left, beam) ==> c == OverlapClip(left, beam)
    ensures !Overlaps(left, beam) ==> c == Clip(100.0, 100.0) || c == Clip(0.0, 0.0)
    ensures !Overlaps(left, beam) && left + ScannerMotion.CardWidth < beam.left ==> c == Clip(100.0, 100.0)
    ensures !Overlaps(left, beam) && left + ScannerMotion.CardWidth >= beam.left ==> c == Clip(0.0, 0.0)
  {
    if Overlaps(left, beam) then OverlapClip(left, beam)
    else if left + ScannerMotion.CardWidth < beam.left then Clip(100.0, 100.0)
    else Clip(0.0, 0.0)
  }

  /** The clip with the left-of-beam test made inclusive: a card that has
      fully passed the beam (its right edge at or left of the beam's left edge)
      is fully encoded, one that has not reached it (its left edge at or right
      of the beam's right edge) fully normal (ClipMonotone: the further left
      the card, the more of it is encoded). */
  function ClipFor(left: real, beam: Beam): (c: Clip)
    requires beam.left <= beam.right
    ensures 0.0 <= c.right <= c.left <= 100.0
    ensures Overlaps(left, beam) ==> c == OverlapClip(left, beam)
    ensures left + ScannerMotion.CardWidth <= beam.left ==> c == Clip(100.0, 100.0)
    ensures beam.right <= left ==> c == Clip(0.0, 0.0)
  {
    if Overlaps(left, beam) then OverlapClip(left, beam)
    else if left + ScannerMotion.CardWidth <= beam.left then Clip(100.0, 100.0)
    else Clip(0.0, 0.0)
  }

  /** As the strip moves a card to the left, neither percentage of its
      (corrected) clip ever goes down. */
  lemma ClipMonotone(l1: real, l2: real, beam: Beam)
    requires beam.left <= beam.right && l1 <= l2
    ensures ClipFor(l2, beam).right <= ClipFor(l1, beam).right
    ensures ClipFor(l2, beam).left <= ClipFor(l1, beam).left
  {
    if Overlaps(l1, beam) && Overlaps(l2, beam) {
      assert Max(beam.left - l2, 0.0) <= Max(beam.left - l1, 0.0);
      assert Min(beam.right - l2, ScannerMotion.CardWidth) <= Min(beam.right - l1, ScannerMotion.CardWidth);
    }
  }

  /** On the beam of an 800-pixel container, `[338, 342]`, a card whose right
      edge touches the beam's left edge (left edge at -12) is clipped as if
      the beam had not reached it, while the cards half a pixel either side
      are fully (or all but fully) encoded. */
  lemma ClipAsWrittenSkips()
    ensures BeamOf(800.0) == Beam(338.0, 342.0)
    ensures ClipAsWritten(-12.5, BeamOf(800.0)) == Clip(100.0, 100.0)
    ensures ClipAsWritten(-12.0, BeamOf(800.0)) == Clip(0.0, 0.0)
    ensures ClipAsWritten(-11.5, BeamOf(800.0)).left == 100.0
    ensures ClipFor(-12.0, BeamOf(800.0)) == Clip(100.0, 100.0)
  {
    assert Overlaps(-11.5, BeamOf(800.0));
    assert OverlapClip(-11.5, Beam(338.0, 342.0)).left == 100.0;
  }

  /** `scanEffect`: the beam only reveals the encoded layer, or also scrambles
      its text when a card comes under it. */
  datatype Effect = ClipOnly | Scramble

  /** The mutable state of one card as the frame and scramble updates see it:
      the wrapper's `scanned` flag, the encoded text's `scrambling` flag with
      the running scramble's tick count, the encoded text and the clip. */
  datatype CardFx = CardFx(scanned: bool, scrambling: bool, ticks: nat, text: string, clip: Clip)

  /** A scramble is running with fewer than ten ticks done, or none is and the count is zero. */
  predicate ScrambleOk(fx: CardFx)
  {
    if fx.scrambling then fx.ticks < MaxScrambles else fx.ticks == 0
  }

  /** The frame starts a scramble of this card: it has just come under the
      beam, the effect is a scramble and none is running. */
  predicate StartsScramble(fx: CardFx, left: real, beam: Beam, effect: Effect)
  {
    Overlaps(left, beam) && !fx.scanned && effect == Scramble && !fx.scrambling
  }

  /** One frame of `updateCardEffects` for one card. */
  function FrameCard(fx: CardFx, left: real, beam: Beam, effect: Effect): (r: CardFx)
    requires beam.left <= beam.right
    // the flag follows the overlap
    ensures r.scanned == Overlaps(left, beam)
    ensures r.clip == ClipFor(left, beam)
    // a scramble starts only on the way in, and only when none is running
    ensures StartsScramble(fx, left, beam, effect) ==> r.scrambling && r.ticks == 0 && r.text == fx.text
    ensures !StartsScramble(fx, left, beam, effect) ==>
              r.scrambling == fx.scrambling && r.ticks == fx.ticks && r.text == fx.text
    ensures ScrambleOk(fx) ==> ScrambleOk(r)
  {
    if Overlaps(left, beam) then
      var started :=
        if !fx.scanned && effect == Scramble && !fx.scrambling then fx.(scrambling := true, ticks := 0)
        else fx;
      started.(scanned := true, clip := ClipFor(left, beam))
    else fx.(scanned := false, clip := ClipFor(left, beam))
  }

  /** One tick of a running scramble: fresh noise, or the original text back
      after the tenth tick. */
  function TickCard(fx: CardFx, noise: string, original: string): (r: CardFx)
    requires fx.scrambling && ScrambleOk(fx)
    ensures ScrambleOk(r)
    ensures r.scanned == fx.scanned && r.clip == fx.clip
    ensures fx.ticks + 1 < MaxScrambles ==> r.scrambling && r.ticks == fx.ticks + 1 && r.text == noise
    ensures fx.ticks + 1 == MaxScrambles ==> !r.scrambling && r.text == original
  {
    var count := fx.ticks + 1;
    if count >= MaxScrambles then fx.(scrambling := false, ticks := 0, text := original)
    else fx.(ticks := count, text := noise)
  }

  /** The ticks of a scramble, one noise text per tick, with no frame between. */
  function Scrambled(fx: CardFx, noises: seq<string>, original: string): (r: CardFx)
    requires ScrambleOk(fx) && (fx.scrambling || noises == [])
    requires fx.ticks + |noises| <= MaxScrambles
    ensures r.scanned == fx.scanned && r.clip == fx.clip
    // before the tenth tick the card still shows the latest noise
    ensures noises != [] && fx.ticks + |noises| < MaxScrambles ==>
              r.scrambling && r.ticks == fx.ticks + |noises| && r.text == noises[|noises| - 1]
    // the tenth tick ends the scramble and restores the original text
    ensures noises != [] && fx.ticks + |noises| == MaxScrambles ==> !r.scrambling && r.text == original
    decreases |noises|
  {
    if noises == [] then fx
    else Scrambled(TickCard(fx, noises[0], original), noises[1..], original)
  }

  /** A scramble started by a frame lasts exactly ten ticks, whatever the
      frames in between do: frames neither restart nor end it. */
  lemma ScrambleLastsTenTicks(fx: CardFx, left: real, beam: Beam, effect: Effect, noises: seq<string>, original: string)
    requires beam.left <= beam.right && ScrambleOk(fx)
    requires StartsScramble(fx, left, beam, effect) && |noises| == MaxScrambles
    ensures var s := FrameCard(fx, left, beam, effect);
            forall k :: 1 <= k < MaxScrambles ==> Scrambled(s, noises[..k], original).scrambling
    ensures !Scrambled(FrameCard(fx, left, beam, effect), noises, original).scrambling
    ensures Scrambled(FrameCard(fx, left, beam, effect), noises, original).text == original
  {
    var s := FrameCard(fx, left, beam, effect);
    forall k | 1 <= k < MaxScrambles
      ensures Scrambled(s, noises[..k], original).scrambling
    {
      assert |noises[..k]| == k;
    }
  }

  /** A running scramble survives any frame unchanged. */
  lemma FrameKeepsScramble(fx: CardFx, left: real, beam: Beam, effect: Effect)
    requires beam.left <= beam.right && fx.scrambling
    ensures var r := FrameCard(fx, left, beam, effect);
            r.scrambling && r.ticks == fx.ticks && r.text == fx.text
  {
  }

  /** The number of scrambles a run of frames starts for one card. */
  function Starts(fx: CardFx, lefts: seq<real>, beam: Beam, effect: Effect): nat
    requires beam.left <= beam.right
    decreases |lefts|
  {
    if lefts == [] then 0
    else (if StartsScramble(fx, lefts[0], beam, effect) then 1 else 0)
         + Starts(FrameCard(fx, lefts[0], beam, effect), lefts[1..], beam, effect)
  }

  /** During one pass under the beam, frames start at most one scramble of a
      card, and none if it was already marked scanned. */
  lemma {:induction false} OneScramblePerPass(fx: CardFx, lefts: seq<real>, beam: Beam, effect: Effect)
    requires beam.left <= beam.right
    requires forall k :: 0 <= k < |lefts| ==> Overlaps(lefts[k], beam)
    ensures Starts(fx, lefts, beam, effect) <= 1
    ensures fx.scanned ==> Starts(fx, lefts, beam, effect) == 0
    decreases |lefts|
  {
    if lefts != [] {
      var next := FrameCard(fx, lefts[0], beam, effect);
      assert next.scanned;
      OneScramblePerPass(next, lefts[1..], beam, effect);
    }
  }

  /** Some card among the first `n` is under the beam. */
  function AnyOverlap(n: nat, gap: real, position: real, beam: Beam): (r: bool)
    ensures r <==> exists i :: 0 <= i < n && Overlaps(CardLeft(i, gap, position), beam)
  {
    if n == 0 then false
    else AnyOverlap(n - 1, gap, position, beam) || Overlaps(CardLeft(n - 1, gap, position), beam)
  }

  /** The card strip as the frame and scramble updates see it: one `CardFx`
      per card, the original encoded text of each card and the scanning flag. */
  class ScanBoard {
    var cards: seq<CardFx>
    var isScanning: bool
    const originals: seq<string>
    const scanEffect: Effect
    const gap: real
    const width: real

    predicate Valid()
      reads this
    {
      |cards| == |originals| && forall i :: 0 <= i < |cards| ==> ScrambleOk(cards[i])
    }

    /** Cards showing their original text, none scanned or scrambling, unclipped. */
    constructor (originals: seq<string>, scanEffect: Effect, gap: real, width: real)
      requires 0.0 < width
      ensures Valid()
      ensures |cards| == |originals|
      ensures forall i :: 0 <= i < |cards| ==> cards[i] == CardFx(false, false, 0, originals[i], Clip(0.0, 0.0))
      ensures !isScanning
      ensures this.originals == originals && this.scanEffect == scanEffect && this.gap == gap && this.width == width
    {
      cards := seq(|originals|, i requires 0 <= i < |originals| => CardFx(false, false, 0, originals[i], Clip(0.0, 0.0)));
      isScanning := false;
      this.originals := originals;
      this.scanEffect := scanEffect;
      this.gap := gap;
      this.width := width;
    }

    /** `updateCardEffects`: every card gets its frame update for the strip at
        `position`, and the scanning flag becomes whether any card is under
        the beam. */
    method UpdateCardEffects(position: real)
      requires Valid()
      modifies this
      ensures Valid()
      ensures |cards| == |old(cards)|
      ensures forall i :: 0 <= i < |cards| ==>
                cards[i] == FrameCard(old(cards)[i], CardLeft(i, gap, position), BeamOf(width), scanEffect)
      ensures isScanning <==> exists i :: 0 <= i < |cards| && Overlaps(CardLeft(i, gap, position), BeamOf(width))
    {
      var beam := BeamOf(width);
      var anyCardIsScanning := false;
      for i := 0 to |cards|
        invariant |cards| == |old(cards)| == |originals|
        invariant forall k :: 0 <= k < i ==> cards[k] == FrameCard(old(cards)[k], CardLeft(k, gap, position), beam, scanEffect)
        invariant forall k :: i <= k < |cards| ==> cards[k] == old(cards)[k]
        invariant forall k :: 0 <= k < |cards| ==> ScrambleOk(cards[k])
        invariant anyCardIsScanning == AnyOverlap(i, gap, position, beam)
      {
        var relativeLeft := CardLeft(i, gap, position);
        var fx := cards[i];
        if relativeLeft < beam.right && relativeLeft + ScannerMotion.CardWidth > beam.left {
          anyCardIsScanning := true;
          if !fx.scanned {
            if scanEffect == Scramble && !fx.scrambling {
              fx := fx.(scrambling := true, ticks := 0);
            }
            fx := fx.(scanned := true);
          }
          fx := fx.(clip := OverlapClip(relativeLeft, beam));
        } else {
          fx := fx.(scanned := false);
          if relativeLeft + ScannerMotion.CardWidth <= beam.left {
            fx := fx.(clip := Clip(100.0, 100.0));
          } else {
            fx := fx.(clip := Clip(0.0, 0.0));
          }
        }
        cards := cards[i := fx];
      }
      if isScanning != anyCardIsScanning {
        isScanning := anyCardIsScanning;
      }
    }

    /** One 30 ms tick of the scramble running on card `i`: the text becomes
        fresh noise drawn from `draws`, and after the tenth tick the original. */
    method ScrambleTick(i: nat, draws: seq<real>)
      requires Valid() && i < |cards| && cards[i].scrambling
      requires CodeColumns * CodeRows <= |draws| && AllDraws(draws)
      modifies this
      ensures Valid()
      ensures cards == old(cards)[i := TickCard(old(cards)[i], Code(draws, CodeColumns, CodeRows), originals[i])]
      ensures isScanning == old(isScanning)
    {
      var noise := GenerateCode(CodeColumns, CodeRows, draws);
      var fx := cards[i];
      var scrambleCount := fx.ticks + 1;
      if scrambleCount >= MaxScrambles {
        fx := fx.(scrambling := false, ticks := 0, text := originals[i]);
      } else {
        fx := fx.(ticks := scrambleCount, text := noise);
      }
      cards := cards[i := fx];
    }
  }
}
