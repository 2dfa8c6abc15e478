/** Stimulus records of a playback configuration, the check that a response's
    reward and punishment probabilities add up to at most 1, and the rule that
    picks each stimulus's cue location. */
module Stimuli {
  import opened Wrappers

  type Action = string

  /** The consequence of one response; either probability key may be absent. */
  datatype Consequence = Consequence(pReward: Option<real>, pPunish: Option<real>)

  /** One entry of a stimulus's `responses` map, in the map's iteration order. */
  datatype Response = Response(action: Action, consequence: Consequence)

  datatype Stimulus = Stimulus(name: string, frequency: int, responses: seq<Response>)

  /** The parsed configuration file: the stimulus directory and the stimulus records. */
  datatype Config = Config(stimulusRoot: string, stimuli: seq<Stimulus>)

  /** Why building the playback machine fails. */
  datatype SpawnError =
    | ProbabilityExceeded(stimulus: string, action: Action)
    | NegativeFrequency(stimulus: string)

  /** A probability as it enters the sum: an absent key counts as 0. */
  function Weight(p: Option<real>): real
  {
    if p.Some? then p.value else 0.0
  }

  function Total(c: Consequence): real
  {
    Weight(c.pReward) + Weight(c.pPunish)
  }

  predicate WithinOne(c: Consequence)
  {
    Total(c) <= 1.0
  }

  /** The consequence names a reward probability (the key is present, whatever its value). */
  predicate Rewarded(c: Consequence)
  {
    c.pReward.Some?
  }

  predicate ResponsesOk(rs: seq<Response>)
  {
    forall k :: 0 <= k < |rs| ==> WithinOne(rs[k].consequence)
  }

  predicate StimulusOk(s: Stimulus)
  {
    ResponsesOk(s.responses) && s.frequency >= 0
  }

  predicate AllOk(stims: seq<Stimulus>)
  {
    forall i :: 0 <= i < |stims| ==> StimulusOk(stims[i])
  }

  /** The sum counts an absent key as 0: a consequence with neither key always
      passes, one with a single key passes exactly when that probability is at
      most 1, and one with both passes exactly when their sum is at most 1. */
  lemma WithinOneCases(c: Consequence)
    ensures c.pReward.None? && c.pPunish.None? ==> WithinOne(c)
    ensures c.pReward.Some? && c.pPunish.None? ==> (WithinOne(c) <==> c.pReward.value <= 1.0)
    ensures c.pReward.None? && c.pPunish.Some? ==> (WithinOne(c) <==> c.pPunish.value <= 1.0)
    ensures c.pReward.Some? && c.pPunish.Some? ==>
              (WithinOne(c) <==> c.pReward.value + c.pPunish.value <= 1.0)
  {
  }

  /** The error raised for the first response, in iteration order, whose
      probabilities add up to more than 1; None when there is none. */
  function ResponsesError(name: string, rs: seq<Response>): (r: Option<SpawnError>)
    ensures r.None? <==> ResponsesOk(rs)
    ensures r.Some? ==> exists k :: 0 <= k < |rs| && !WithinOne(rs[k].consequence)
                           && r.value == ProbabilityExceeded(name, rs[k].action)
                           && forall j :: 0 <= j < k ==> WithinOne(rs[j].consequence)
  {
    if rs == [] then None
    else
      var prefix := rs[..|rs| - 1];
      assert forall k :: 0 <= k < |prefix| ==> prefix[k] == rs[k];
      var pre := ResponsesError(name, prefix);
      if pre.Some? then
        pre
      else if !WithinOne(rs[|rs| - 1].consequence) then
        Some(ProbabilityExceeded(name, rs[|rs| - 1].action))
      else
        None
  }

  /** The error raised while handling one stimulus: a bad response first, then
      a negative frequency (numpy refuses to repeat an index a negative number of times). */
  function StimulusError(s: Stimulus): (r: Option<SpawnError>)
    ensures r.None? <==> StimulusOk(s)
    ensures r.Some? && r.value.ProbabilityExceeded? ==> r == ResponsesError(s.name, s.responses)
    ensures r.Some? && r.value.NegativeFrequency? ==>
              r.value.stimulus == s.name && ResponsesOk(s.responses) && s.frequency < 0
  {
    var e := ResponsesError(s.name, s.responses);
    if e.Some? then e
    else if s.frequency < 0 then Some(NegativeFrequency(s.name))
    else None
  }

  /** The error that aborts the scan of the stimulus list: that of the first
      stimulus, in list order, that has one. */
  function FirstError(stims: seq<Stimulus>): (r: Option<SpawnError>)
    ensures r.None? <==> AllOk(stims)
    ensures r.Some? ==> exists i :: 0 <= i < |stims| && r == StimulusError(stims[i])
                           && forall j :: 0 <= j < i ==> StimulusOk(stims[j])
  {
    if stims == [] then None
    else
      var prefix := stims[..|stims| - 1];
      assert forall i :: 0 <= i < |prefix| ==> prefix[i] == stims[i];
      var pre := FirstError(prefix);
      if pre.Some? then pre else StimulusError(stims[|stims| - 1])
  }

  /** The cue location of a stimulus: the last action, in iteration order,
      whose consequence names a reward probability; None if no action does. */
  function CueLocation(rs: seq<Response>): (r: Option<Action>)
    ensures r.None? <==> forall k :: 0 <= k < |rs| ==> !Rewarded(rs[k].consequence)
    ensures r.Some? ==> exists k :: 0 <= k < |rs| && rs[k].action == r.value
                           && Rewarded(rs[k].consequence) && NoRewardAfter(rs, k)
  {
    if rs == [] then None
    else
      var pre, last := rs[..|rs| - 1], rs[|rs| - 1];
      assert forall k :: 0 <= k < |pre| ==> pre[k] == rs[k];
      if Rewarded(last.consequence) then
        assert NoRewardAfter(rs, |rs| - 1);
        Some(last.action)
      else
        var r := CueLocation(pre);
        assert forall k :: 0 <= k < |pre| && NoRewardAfter(pre, k) ==> NoRewardAfter(rs, k);
        r
  }

  /** No response after position k names a reward probability. */
  predicate NoRewardAfter(rs: seq<Response>, k: nat)
  {
    forall j :: k < j < |rs| ==> !Rewarded(rs[j].consequence)
  }

  /** Presence of the reward key, not its value, decides the cue: an action whose
      reward probability is 0 still becomes the cue location when it comes last,
      and a later action with only a punishment probability does not displace it. */
  lemma RewardKeyDecidesCue(rs: seq<Response>, a: Action, punish: real, b: Action)
    ensures CueLocation(rs + [Response(a, Consequence(Some(0.0), None))]) == Some(a)
    ensures CueLocation(rs + [Response(a, Consequence(Some(0.0), None)),
                              Response(b, Consequence(None, Some(punish)))]) == Some(a)
  {
  }

  function Names(stims: seq<Stimulus>): set<string>
  {
    set i | 0 <= i < |stims| :: stims[i].name
  }

  /** The `cue_locations` table: one entry per stimulus name, written in list
      order, so a later stimulus with the same name overwrites an earlier one. */
  function CueLocations(stims: seq<Stimulus>): (m: map<string, Option<Action>>)
    ensures m.Keys == Names(stims)
  {
    if stims == [] then map[]
    else
      var last := stims[|stims| - 1];
      assert Names(stims) == Names(stims[..|stims| - 1]) + {last.name} by {
        assert forall i :: 0 <= i < |stims| - 1 ==> stims[..|stims| - 1][i] == stims[i];
      }
      CueLocations(stims[..|stims| - 1])[last.name := CueLocation(last.responses)]
  }

  /** The entry for a name is the cue location of the LAST stimulus carrying that name. */
  lemma {:induction false} CueLocationsLastWins(stims: seq<Stimulus>, i: nat)
    requires i < |stims|
    requires forall j :: i < j < |stims| ==> stims[j].name != stims[i].name
    ensures stims[i].name in CueLocations(stims)
    ensures CueLocations(stims)[stims[i].name] == CueLocation(stims[i].responses)
  {
    if i < |stims| - 1 {
      var pre := stims[..|stims| - 1];
      assert pre[i] == stims[i];
      CueLocationsLastWins(pre, i);
    }
  }

  /** With distinct names, every stimulus's own cue location is in the table. */
  lemma CueLocationsOfDistinct(stims: seq<Stimulus>, i: nat)
    requires i < |stims|
    requires forall a, b :: 0 <= a < b < |stims| ==> stims[a].name != stims[b].name
    ensures CueLocations(stims)[stims[i].name] == CueLocation(stims[i].responses)
  {
    CueLocationsLastWins(stims, i);
  }

  /** Once a prefix of the responses holds a bad one, the whole list reports that same error. */
  lemma {:induction false} ResponsesErrorPrefix(name: string, rs: seq<Response>, k: nat)
    requires k <= |rs|
    requires ResponsesError(name, rs[..k]).Some?
    ensures ResponsesError(name, rs) == ResponsesError(name, rs[..k])
  {
    if k < |rs| {
      assert rs[..|rs| - 1][..k] == rs[..k];
      ResponsesErrorPrefix(name, rs[..|rs| - 1], k);
    } else {
      assert rs[..k] == rs;
    }
  }

  /** Once a prefix of the stimuli holds a bad one, the whole list reports that same error. */
  lemma {:induction false} FirstErrorPrefix(stims: seq<Stimulus>, k: nat)
    requires k <= |stims|
    requires FirstError(stims[..k]).Some?
    ensures FirstError(stims) == FirstError(stims[..k])
  {
    if k < |stims| {
      assert stims[..|stims| - 1][..k] == stims[..k];
      FirstErrorPrefix(stims[..|stims| - 1], k);
    } else {
      assert stims[..k] == stims;
    }
  }

  /** The per-stimulus repeat counts of a list that passed validation. */
  function Frequencies(stims: seq<Stimulus>): seq<nat>
    requires AllOk(stims)
  {
    seq(|stims|, i requires 0 <= i < |stims| => stims[i].frequency as nat)
  }
}
