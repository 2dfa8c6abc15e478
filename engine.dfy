/** The stateful pieces of the experiment engine: the stimulus playback
    machine (`JukeBox`) with its playlist and iteration cursor, and the
    house-light state kept by `Sun`. */
module Engine {
  import opened Wrappers
  import opened Stimuli
  import opened Playlist
  import opened HouseLight

  /** What one pass over the stimulus list builds. */
  datatype Scanned = Scanned(cueLocations: map<string, Option<Action>>, playlist: seq<nat>)

  /** `next` before the iterator was set up (no `iter` attribute yet), or past its end. */
  datatype IterError = NotIterating | StopIteration

  /** `current_cue` asked before any stimulus was drawn. */
  datatype CueError = NoStimulus

  /** The inner loop over one stimulus's responses: fails on the first response
      whose probabilities exceed 1, otherwise yields the stimulus's cue location. */
  method ScanResponses(name: string, rs: seq<Response>) returns (r: Result<Option<Action>, SpawnError>)
    ensures r.Failure? <==> !ResponsesOk(rs)
    ensures r.Failure? ==> Some(r.error) == ResponsesError(name, rs)
    ensures r.Success? ==> r.value == CueLocation(rs)
  {
    var cueLoc: Option<Action> := None;
    var k := 0;
    while k < |rs|
      invariant 0 <= k <= |rs|
      invariant ResponsesError(name, rs[..k]).None?
      invariant cueLoc == CueLocation(rs[..k])
    {
      var consq := rs[k].consequence;
      var total := (if consq.pReward.Some? then consq.pReward.value else 0.0)
                 + (if consq.pPunish.Some? then consq.pPunish.value else 0.0);
      assert rs[..k + 1][..k] == rs[..k];
      if total > 1.0 {
        ResponsesErrorPrefix(name, rs, k + 1);
        return Failure(ProbabilityExceeded(name, rs[k].action));
      }
      if consq.pReward.Some? {
        cueLoc := Some(rs[k].action);
      }
      k := k + 1;
    }
    assert rs[..k] == rs;
    return Success(cueLoc);
  }

  /** One more stimulus that passes validation extends the table by its entry
      and the playlist by its group. */
  lemma ScanStep(stims: seq<Stimulus>, i: nat)
    requires i < |stims| && FirstError(stims[..i]).None? && StimulusOk(stims[i])
    ensures FirstError(stims[..i + 1]).None?
    ensures CueLocations(stims[..i + 1])
            == CueLocations(stims[..i])[stims[i].name := CueLocation(stims[i].responses)]
    ensures AllOk(stims[..i + 1]) && AllOk(stims[..i])
    ensures Grouped(Frequencies(stims[..i + 1]))
            == Grouped(Frequencies(stims[..i])) + Repeat(i, stims[i].frequency)
  {
    var pre, ext := stims[..i], stims[..i + 1];
    assert ext[..i] == pre && ext[i] == stims[i];
    assert AllOk(ext) by {
      assert forall j :: 0 <= j < i ==> ext[j] == pre[j];
    }
    var f := Frequencies(ext);
    assert f[..i] == Frequencies(pre);
    assert Grouped(f) == Grouped(f[..i]) + Repeat(i, f[i]);
  }

  /** A stimulus that fails validation after a clean prefix decides the scan's error. */
  lemma ScanFails(stims: seq<Stimulus>, i: nat)
    requires i < |stims| && FirstError(stims[..i]).None? && !StimulusOk(stims[i])
    ensures FirstError(stims) == StimulusError(stims[i])
    ensures !AllOk(stims)
  {
    assert stims[..i + 1][..i] == stims[..i];
    FirstErrorPrefix(stims, i + 1);
  }

  /** The validation and playlist loop of the playback machine's construction:
      fails with the first stimulus's error, otherwise yields the cue-location
      table and the stimulus indices, each repeated by its frequency, laid end to end. */
  method Scan(stims: seq<Stimulus>) returns (r: Result<Scanned, SpawnError>)
    ensures r.Failure? <==> !AllOk(stims)
    ensures r.Failure? ==> Some(r.error) == FirstError(stims)
    ensures r.Success? ==> AllOk(stims)
    ensures r.Success? ==> r.value.cueLocations == CueLocations(stims)
                             && r.value.playlist == Grouped(Frequencies(stims))
  {
    var cueLocations: map<string, Option<Action>> := map[];
    var playlist: seq<nat> := [];
    var i := 0;
    while i < |stims|
      invariant 0 <= i <= |stims|
      invariant FirstError(stims[..i]).None?
      invariant cueLocations == CueLocations(stims[..i])
      invariant playlist == Grouped(Frequencies(stims[..i]))
    {
      var stim := stims[i];
      var cueLoc := ScanResponses(stim.name, stim.responses);
      if cueLoc.Failure? {
        ScanFails(stims, i);
        return Failure(cueLoc.error);
      }
      cueLocations := cueLocations[stim.name := cueLoc.value];
      if stim.frequency < 0 {
        ScanFails(stims, i);
        return Failure(NegativeFrequency(stim.name));
      }
      ScanStep(stims, i);
      playlist := playlist + Repeat(i, stim.frequency);
      i := i + 1;
    }
    assert stims[..i] == stims;
    return Success(Scanned(cueLocations, playlist));
  }

  /** Every index of a permuted playlist occurs exactly as often as its stimulus's frequency. */
  lemma PermutedCounts(f: seq<nat>, p: seq<nat>)
    requires multiset(p) == multiset(Grouped(f))
    ensures |p| == Sum(f)
    ensures forall i :: 0 <= i < |f| ==> multiset(p)[i] == f[i]
    ensures forall k :: 0 <= k < |p| ==> p[k] < |f|
  {
    assert |p| == |multiset(p)| == |multiset(Grouped(f))| == |Grouped(f)|;
    forall i | 0 <= i < |f| ensures multiset(p)[i] == f[i] {
      GroupedCount(f, i);
    }
    forall k | 0 <= k < |p| ensures p[k] < |f| {
      assert p[k] in multiset(Grouped(f));
      var g := Grouped(f);
      var m :| 0 <= m < |g| && g[m] == p[k];
    }
  }

  class JukeBox {
    const dir: string
    const stimData: seq<Stimulus>
    const cueLocations: map<string, Option<Action>>
    const playlist: array<nat>
    var playing: Option<bool>
    /** Position of the playlist iterator; None until `Iter` has set it up. */
    var cursor: Option<nat>
    /** Name of the last stimulus drawn. */
    var stimulus: Option<string>

    ghost predicate Valid()
      reads this, playlist
    {
      && cueLocations == CueLocations(stimData)
      && (forall k :: 0 <= k < playlist.Length ==> playlist[k] < |stimData|)
      && (cursor.Some? ==> cursor.value <= playlist.Length)
      && (stimulus.Some? ==> stimulus.value in cueLocations)
    }

    constructor (dir: string, stimData: seq<Stimulus>, cueLocations: map<string, Option<Action>>, playlist: array<nat>)
      requires cueLocations == CueLocations(stimData)
      requires forall k :: 0 <= k < playlist.Length ==> playlist[k] < |stimData|
      ensures Valid()
      ensures this.dir == dir && this.stimData == stimData
      ensures this.cueLocations == cueLocations && this.playlist == playlist
      ensures playing == None && cursor == None && stimulus == None
    {
      this.dir := dir;
      this.stimData := stimData;
      this.cueLocations := cueLocations;
      this.playlist := playlist;
      playing := None;
      cursor := None;
      stimulus := None;
    }

    /** Builds the playback machine from a parsed configuration: validates every
        response, records the cue locations and lays out the playlist, shuffled
        with the generator's draws when `shuffle` is set. */
    static method Spawn(conf: Config, shuffle: bool, draw: nat -> nat) returns (r: Result<JukeBox, SpawnError>)
      ensures r.Failure? <==> !AllOk(conf.stimuli)
      ensures r.Failure? ==> Some(r.error) == FirstError(conf.stimuli)
      ensures r.Success? ==> AllOk(conf.stimuli)
      ensures r.Success? ==> fresh(r.value) && fresh(r.value.playlist) && r.value.Valid()
      ensures r.Success? ==> r.value.dir == conf.stimulusRoot && r.value.stimData == conf.stimuli
                               && r.value.cueLocations == CueLocations(conf.stimuli)
      ensures r.Success? ==> multiset(r.value.playlist[..]) == multiset(Grouped(Frequencies(conf.stimuli)))
      ensures r.Success? && !shuffle ==> r.value.playlist[..] == Grouped(Frequencies(conf.stimuli))
      ensures r.Success? ==> r.value.playing == None && r.value.cursor == None && r.value.stimulus == None
    {
      var scanned := Scan(conf.stimuli);
      if scanned.Failure? {
        return Failure(scanned.error);
      }
      var a := Layout(scanned.value.playlist, shuffle, draw);
      ghost var f := Frequencies(conf.stimuli);
      PermutedCounts(f, a[..]);
      var jb := new JukeBox(conf.stimulusRoot, conf.stimuli, scanned.value.cueLocations, a);
      r := Success(jb);
    }

    /** The playlist as a fresh numpy-style array, shuffled in place when asked. */
    static method Layout(pl: seq<nat>, shuffle: bool, draw: nat -> nat) returns (a: array<nat>)
      ensures fresh(a)
      ensures multiset(a[..]) == multiset(pl)
      ensures !shuffle ==> a[..] == pl
    {
      a := new nat[|pl|](k requires 0 <= k < |pl| => pl[k]);
      assert a[..] == pl;
      if shuffle {
        Shuffle(a, draw);
      }
    }

    /** `__iter__`: puts the cursor at the start of the playlist, clears the
        playing flag and forgets the current stimulus. */
    method Iter()
      requires Valid()
      modifies this
      ensures Valid()
      ensures cursor == Some(0) && playing == Some(false) && stimulus == None
    {
      cursor := Some(0);
      playing := Some(false);
      stimulus := None;
    }

    /** `__next__`: draws the stimulus record at the cursor and remembers its name;
        fails, changing nothing, when the iterator is not set up or is exhausted. */
    method Next() returns (r: Result<Stimulus, IterError>)
      requires Valid()
      modifies this
      ensures Valid() && playing == old(playing)
      ensures old(cursor).None? ==>
                r == Failure(NotIterating) && cursor == old(cursor) && stimulus == old(stimulus)
      ensures old(cursor).Some? && old(cursor).value == playlist.Length ==>
                r == Failure(StopIteration) && cursor == old(cursor) && stimulus == old(stimulus)
      ensures old(cursor).Some? && old(cursor).value < playlist.Length ==>
                && r == Success(stimData[playlist[old(cursor).value]])
                && cursor == Some(old(cursor).value + 1)
                && stimulus == Some(r.value.name)
      ensures r.Success? ==> CurrentCue() == Success(CueLocations(stimData)[r.value.name])
    {
      if cursor.None? {
        return Failure(NotIterating);
      }
      var k := cursor.value;
      if k == playlist.Length {
        return Failure(StopIteration);
      }
      var item := playlist[k];
      cursor := Some(k + 1);
      stimulus := Some(stimData[item].name);
      assert stimData[item].name in Names(stimData);
      return Success(stimData[item]);
    }

    /** `current_cue`: the cue location recorded for the current stimulus's name;
        fails when no stimulus has been drawn. */
    function CurrentCue(): (r: Result<Option<Action>, CueError>)
      reads this, playlist
      requires Valid()
      ensures r.Failure? <==> stimulus.None?
      ensures r.Success? ==> stimulus.value in Names(stimData)
                               && r.value == CueLocations(stimData)[stimulus.value]
    {
      if stimulus.None? then Failure(NoStimulus) else Success(cueLocations[stimulus.value])
    }
  }

  class Sun {
    var brightness: int
    var daytime: bool
    const interval: int

    /** `Sun.spawn`: lights off, night, and the given clock interval. */
    constructor Spawn(interval: int)
      ensures brightness == 0 && !daytime && this.interval == interval
    {
      brightness := 0;
      daytime := false;
      this.interval := interval;
    }

    /** The snapshot callback of the light cycle: copies brightness and daytime
        from the house-light snapshot and accepts every snapshot. */
    method LightUpdate(msg: HlState) returns (caught: bool)
      modifies this
      ensures brightness == msg.brightness as int && daytime == msg.daytime
      ensures caught
    {
      brightness := msg.brightness as int;
      daytime := msg.daytime;
      return true;
    }
  }
}
