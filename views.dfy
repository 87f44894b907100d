/**
 * The parts of the web views that decide something on their own: the
 * nearest-stimulus reaction-time rule, the `tap_times` format check of the
 * tap-recording endpoint and the empty-input guard of the trial endpoint.
 * Sessions, the ORM and the REPP analysis they call are not part of this model.
 */
module Views {
  import opened JsonValue

  /** The key Python's `min` compares: `abs(x - resp_time)`. */
  function Distance(x: real, t: real): real {
    if x >= t then x - t else t - x
  }

  /**
   * The index `min(stim, key=lambda x: abs(x - t))` settles on. `min` walks
   * left to right and replaces its candidate only on a strictly smaller key,
   * so among equally near onsets the first one wins.
   */
  function NearestIndex(stim: seq<real>, t: real): (k: nat)
    requires |stim| > 0
    ensures k < |stim|
    ensures forall j :: 0 <= j < |stim| ==> Distance(stim[k], t) <= Distance(stim[j], t)
    ensures forall j :: 0 <= j < k ==> Distance(stim[k], t) < Distance(stim[j], t)
    decreases |stim|
  {
    if |stim| == 1 then 0
    else
      var k := NearestIndex(stim[..|stim| - 1], t);
      if Distance(stim[|stim| - 1], t) < Distance(stim[k], t) then |stim| - 1 else k
  }

  /** One signed reaction time per response, in response order. */
  function ReactionTimes(resp: seq<real>, stim: seq<real>): (rts: seq<real>)
    requires |resp| == 0 || |stim| > 0
  {
    seq(|resp|, i requires 0 <= i < |resp| => resp[i] - stim[NearestIndex(stim, resp[i])])
  }

  /** The inner `min` scan of `calculate_reaction_time`. */
  method ClosestStimulus(stim: seq<real>, t: real) returns (s: real)
    requires |stim| > 0
    ensures s == stim[NearestIndex(stim, t)]
    ensures s in stim
    ensures forall j :: 0 <= j < |stim| ==> Distance(s, t) <= Distance(stim[j], t)
  {
    var best := 0;
    var i := 1;
    while i < |stim|
      invariant 1 <= i <= |stim|
      invariant best == NearestIndex(stim[..i], t)
    {
      assert stim[..i + 1][..i] == stim[..i];
      if Distance(stim[i], t) < Distance(stim[best], t) {
        best := i;
      }
      i := i + 1;
    }
    assert stim[..i] == stim;
    s := stim[best];
  }

  /**
   * `calculate_reaction_time`: for every response, the response time minus
   * the nearest stimulus onset. `min` over an empty `stim` raises, which only
   * happens when there is a response to match.
   */
  method CalculateReactionTime(resp: seq<real>, stim: seq<real>) returns (rts: seq<real>)
    requires |resp| == 0 || |stim| > 0
    ensures rts == ReactionTimes(resp, stim)
    ensures |rts| == |resp|
    ensures forall i :: 0 <= i < |rts| ==>
      NearestIndex(stim, resp[i]) < |stim| && rts[i] == resp[i] - stim[NearestIndex(stim, resp[i])]
    ensures forall i, j :: 0 <= i < |rts| && 0 <= j < |stim| ==>
      Distance(resp[i] - rts[i], resp[i]) <= Distance(stim[j], resp[i])
  {
    rts := [];
    var i := 0;
    while i < |resp|
      invariant 0 <= i <= |resp|
      invariant rts == ReactionTimes(resp[..i], stim)
    {
      var closest := ClosestStimulus(stim, resp[i]);
      rts := rts + [resp[i] - closest];
      i := i + 1;
    }
    assert resp[..i] == resp;
  }

  /** A response that falls exactly on a stimulus onset has reaction time 0. */
  lemma CoincidentResponseIsZero(resp: seq<real>, stim: seq<real>, i: nat, j: nat)
    requires i < |resp| && j < |stim|
    requires resp[i] == stim[j]
    ensures ReactionTimes(resp, stim)[i] == 0.0
  {
    var k := NearestIndex(stim, resp[i]);
    assert Distance(stim[k], resp[i]) <= Distance(stim[j], resp[i]) == 0.0;
  }

  /**
   * NearestIndex is the only index that is at least as near as every onset
   * and strictly nearer than every earlier one.
   */
  lemma {:induction false} NearestIndexUnique(stim: seq<real>, t: real, k: nat)
    requires k < |stim|
    requires forall j :: 0 <= j < |stim| ==> Distance(stim[k], t) <= Distance(stim[j], t)
    requires forall j :: 0 <= j < k ==> Distance(stim[k], t) < Distance(stim[j], t)
    ensures NearestIndex(stim, t) == k
  {
  }

  /**
   * Equal distances on both sides: the onset listed first is chosen. The
   * onsets lie 0.5 from the response, so the tie is exact in binary floating
   * point as well.
   */
  lemma TieGoesToFirstListed()
    ensures ReactionTimes([1.0], [0.5, 1.5]) == [0.5]
    ensures ReactionTimes([1.0], [1.5, 0.5]) == [-0.5]
  {
    assert NearestIndex([0.5, 1.5], 1.0) == 0 by {
      NearestIndexUnique([0.5, 1.5], 1.0, 0);
    }
    assert NearestIndex([1.5, 0.5], 1.0) == 0 by {
      NearestIndexUnique([1.5, 0.5], 1.0, 0);
    }
  }

  /**
   * Responses are matched independently, not one to one: two responses on
   * either side of the same onset are both measured against it, and the
   * other onset is left unused. The values are exact in binary floating
   * point.
   */
  lemma OnsetSharedByResponses()
    ensures ReactionTimes([0.75, 1.25], [1.0, 5.0]) == [-0.25, 0.25]
  {
    assert NearestIndex([1.0, 5.0], 0.75) == 0 by {
      NearestIndexUnique([1.0, 5.0], 0.75, 0);
    }
    assert NearestIndex([1.0, 5.0], 1.25) == 0 by {
      NearestIndexUnique([1.0, 5.0], 1.25, 0);
    }
  }

  /** What `TapRecordAPIView.post` answers once the participant and trial are found. */
  datatype TapRecordResponse = Created | Rejected(error: string)

  /** The `tap_times` format check of `TapRecordAPIView.post`; a missing key reads as None. */
  function TapRecordPost(tapTimes: Json): (r: TapRecordResponse)
    ensures r.Created? <==> tapTimes.JList? && forall k :: 0 <= k < |tapTimes.items| ==> IsNumber(tapTimes.items[k])
    ensures r.Rejected? ==> r.error == "Invalid tap_times data format"
  {
    if IsTimestampList(tapTimes) then Created else Rejected("Invalid tap_times data format")
  }

  /** An empty list and a list of booleans both pass; a missing value does not. */
  lemma TapRecordEdgeCases()
    ensures TapRecordPost(JList([])) == Created
    ensures TapRecordPost(JList([JBool(true), JInt(3), JFloat(0.5)])) == Created
    ensures TapRecordPost(JNull).Rejected?
    ensures TapRecordPost(JList([JStr("1.0")])).Rejected?
  {
    assert !IsNumber(JList([JStr("1.0")]).items[0]);
  }

  /**
   * What `TrialView.post` answers: `Success` carries the reaction times it
   * computes on the way to its 200 answer, which itself holds only
   * `success: True`.
   */
  datatype TrialPostResponse =
    | Success(reactionTimes: seq<real>)
    | BadRequest(error: string)
    | ServerError

  /**
   * `TrialView.post` on the decoded body's `tap_times` and `stim_onsets`: a
   * missing or falsy value is answered with 400 before anything else; two
   * lists of numbers get their reaction times; any other payload makes the
   * arithmetic raise, which the handler turns into a 500. The lookups,
   * REPP's `do_analysis` and the database writes around the computation are
   * taken to succeed.
   */
  method TrialPost(tapTimes: Json, stimOnsets: Json) returns (r: TrialPostResponse)
    ensures r.BadRequest? <==> !Truthy(tapTimes) || !Truthy(stimOnsets)
    ensures r.BadRequest? ==> r.error == "Invalid data received"
    ensures r.Success? <==>
      Truthy(tapTimes) && Truthy(stimOnsets) && IsTimestampList(tapTimes) && IsTimestampList(stimOnsets)
    ensures r.Success? ==>
      |r.reactionTimes| == |tapTimes.items| > 0 &&
      r.reactionTimes == ReactionTimes(Timestamps(tapTimes), Timestamps(stimOnsets))
  {
    if !Truthy(tapTimes) || !Truthy(stimOnsets) {
      return BadRequest("Invalid data received");
    }
    if !(IsTimestampList(tapTimes) && IsTimestampList(stimOnsets)) {
      return ServerError;
    }
    var rts := CalculateReactionTime(Timestamps(tapTimes), Timestamps(stimOnsets));
    r := Success(rts);
  }
}
