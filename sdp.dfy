/**
  `speedHack` of index.js: raises the application bandwidth line of a session
  description. `sdp.split('b=AS:30')` is taken apart and, when the pattern
  occurs, the result is the first piece, the faster bandwidth line, and the
  second piece; pieces after a second occurrence are dropped.
*/
module Sdp {
  import opened Wrappers
  import opened JsStrings

  const SlowBandwidth: string := "b=AS:30"
  const FastBandwidth: string := "b=AS:1638400"

  function SpeedHack(sdp: string): string {
    var pieces := Split(sdp, SlowBandwidth);
    if |pieces| > 1 then pieces[0] + FastBandwidth + pieces[1] else sdp
  }

  /** Without the slow bandwidth line the description is left as it is. */
  lemma SpeedHackKeepsOtherSdp(sdp: string)
    requires !Contains(sdp, SlowBandwidth)
    ensures SpeedHack(sdp) == sdp
  {
    SplitFirstPiece(sdp, SlowBandwidth);
  }

  /** With it, the result is the text before the first occurrence, the fast line, and the text
      up to the second occurrence (or to the end when there is no second one). */
  lemma SpeedHackRewritesFirst(sdp: string, i: nat)
    requires IndexOf(sdp, SlowBandwidth, 0) == Some(i)
    ensures SpeedHack(sdp) ==
      sdp[..i] + FastBandwidth +
      match IndexOf(sdp, SlowBandwidth, i + 7)
      case None => sdp[i + 7..]
      case Some(j) => sdp[i + 7..j]
  {
    SplitFirstPiece(sdp, SlowBandwidth);
    SplitSecondPiece(sdp, SlowBandwidth, i);
  }

  /** With exactly one occurrence the rewrite is a plain replacement of that line. */
  lemma SpeedHackSingleOccurrence(sdp: string, i: nat)
    requires OccursAt(sdp, SlowBandwidth, i)
    requires forall k :: OccursAt(sdp, SlowBandwidth, k) ==> k == i
    ensures SpeedHack(sdp) == sdp[..i] + FastBandwidth + sdp[i + 7..]
  {
    var first := IndexOf(sdp, SlowBandwidth, 0);
    assert first.Some? && first.value == i;
    var second := IndexOf(sdp, SlowBandwidth, i + 7);
    assert second.None?;
    SpeedHackRewritesFirst(sdp, i);
  }

  /** Gluing the fast line between two texts free of the slow line creates no slow line. */
  lemma GlueCreatesNoSlowLine(p0: string, p1: string)
    requires !Contains(p0, SlowBandwidth) && !Contains(p1, SlowBandwidth)
    ensures !Contains(p0 + FastBandwidth + p1, SlowBandwidth)
  {
    var r := p0 + FastBandwidth + p1;
    var n := |p0|;
    forall k | 0 <= k && k + 7 <= |r| ensures !OccursAt(r, SlowBandwidth, k) {
      var w := r[k..k + 7];
      if k + 7 <= n {
        assert w == p0[k..k + 7];
        assert !OccursAt(p0, SlowBandwidth, k);
      } else if k >= n + 12 {
        var q := r[n + 12..];
        assert q == p1;
        assert w == q[k - n - 12..k - n - 12 + 7];
        assert !OccursAt(p1, SlowBandwidth, k - n - 12);
      } else if k < n {
        assert w[n - k] == r[n] == FastBandwidth[0] == 'b';
        assert SlowBandwidth[n - k] != 'b';
      } else if k > n {
        assert w[0] == FastBandwidth[k - n] != 'b';
      } else {
        assert w[5] == FastBandwidth[5] == '1';
      }
    }
  }

  /** The rewritten description never contains the slow bandwidth line. */
  lemma SpeedHackRemovesSlowLine(sdp: string)
    ensures !Contains(SpeedHack(sdp), SlowBandwidth)
  {
    SplitJoin(sdp, SlowBandwidth);
    var pieces := Split(sdp, SlowBandwidth);
    if |pieces| > 1 {
      GlueCreatesNoSlowLine(pieces[0], pieces[1]);
    } else {
      assert Join(pieces, SlowBandwidth) == pieces[0];
    }
  }

  /** Applying the rewrite twice is the same as once. */
  lemma SpeedHackIdempotent(sdp: string)
    ensures SpeedHack(SpeedHack(sdp)) == SpeedHack(sdp)
  {
    SpeedHackRemovesSlowLine(sdp);
    SpeedHackKeepsOtherSdp(SpeedHack(sdp));
  }
}
