/**
 * Channel routing: the mono stimulus goes into one column of a two-column
 * buffer (column 0 the left ear, column 1 the right ear) and the other column
 * stays silent.
 */
module Stereo {
  import opened Protocol

  /** One row of the two-column buffer handed to the audio device. */
  datatype Frame = Frame(left: real, right: real)

  /** The buffer column an ear listens to: `stereo[:, 1]` for the right ear, `stereo[:, 0]` otherwise. */
  function Column(e: Ear): nat {
    if e == Right then 1 else 0
  }

  function Sample(f: Frame, column: nat): real {
    if column == 0 then f.left else f.right
  }

  /** The samples of one column, top to bottom. */
  function Channel(frames: seq<Frame>, column: nat): seq<real> {
    seq(|frames|, i requires 0 <= i < |frames| => Sample(frames[i], column))
  }

  /** The buffer the experiment plays: the signal in the ear's column, zeros in the other. */
  function StereoLayout(mono: seq<real>, ear: Ear): seq<Frame> {
    seq(|mono|, i requires 0 <= i < |mono| =>
      if ear == Right then Frame(0.0, mono[i]) else Frame(mono[i], 0.0))
  }

  /** The rows of an n-by-2 array. */
  function Frames(a: array2<real>): seq<Frame>
    reads a
    requires a.Length1 == 2
  {
    seq(a.Length0, i requires 0 <= i < a.Length0 reads a => Frame(a[i, 0], a[i, 1]))
  }

  /**
   * The ear's column carries the signal unchanged, the other column is all
   * zeros, and no sample is added or lost.
   */
  lemma OneChannelOnly(mono: seq<real>, ear: Ear)
    ensures |StereoLayout(mono, ear)| == |mono|
    ensures Channel(StereoLayout(mono, ear), Column(ear)) == mono
    ensures Channel(StereoLayout(mono, ear), 1 - Column(ear)) == Zeros(|mono|)
  {
  }

  /** The two ears' buffers for the same signal are the same buffer with its columns swapped. */
  lemma EarsAreMirrored(mono: seq<real>)
    ensures forall i :: 0 <= i < |mono| ==>
      StereoLayout(mono, Left)[i] == Frame(StereoLayout(mono, Right)[i].right, StereoLayout(mono, Right)[i].left)
  {
  }

  /**
   * The buffer `run_trial` builds: `np.zeros((len(stim), 2))`, then the
   * stimulus written into the ear's column.
   */
  method RouteToEar(mono: seq<real>, ear: Ear) returns (stereo: array2<real>)
    ensures fresh(stereo)
    ensures stereo.Length0 == |mono| && stereo.Length1 == 2
    ensures Frames(stereo) == StereoLayout(mono, ear)
  {
    stereo := new real[|mono|, 2]((_, _) => 0.0);
    var col := Column(ear);
    var i := 0;
    while i < |mono|
      invariant 0 <= i <= |mono|
      invariant forall k, c :: 0 <= k < |mono| && 0 <= c < 2 ==>
        stereo[k, c] == if c == col && k < i then mono[k] else 0.0
    {
      stereo[i, col] := mono[i];
      i := i + 1;
    }
  }
}
