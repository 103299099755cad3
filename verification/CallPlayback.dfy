/** What is played: the file that was asked for or the one that was synthesised, and once. */
module CallPlayback {
  import opened CallMachine
  import opened CallPace
  import opened CallIntake
  import opened WavFile
  import opened Tts

  // ---- What the player is given -------------------------------------------------------------

  /** The synthesised file, if there is anything to say: the one file that `synth` writes, which reads back as the
      spoken samples as long as its sizes fit. */
  ghost predicate IsSpeech(config: Config, tone: Tone, path: string) {
    var n, files := WordCount(config.audioPathOrText), SynthFiles(config.audioPathOrText, config.recordDir, tone);
    if n == 0 then path == "" && files == map[]
    else
      && path == config.recordDir + "/tts_stub.wav"
      && files == map[path := WavBytes(Spoken(tone, n))]
      && (ReadWav(files[path]) == Wav(TELEPHONE, Spoken(tone, n)) <==> n <= 383479)
  }

  lemma PathIsSpeech(setup: Setup, tone: Tone)
    requires setup.config.audioType == "text"
    ensures IsSpeech(setup.config, tone, setup.PlayPath())
  {
    hide WavBytes, Spoken, ReadWav, Starts;
    SpeechFits(tone, WordCount(setup.config.audioPathOrText));
  }

  /** Every player that a run starts is given what the configuration names: the file itself, or what was synthesised
      from the text, or nothing. */
  lemma PlaysWhatWasAsked(setup: Setup, tone: Tone, ts: seq<Tick>, j: nat)
    requires j < |Exec(setup, ts).log| && Exec(setup, ts).log[j].StartPlayer?
    ensures var path := Exec(setup, ts).log[j].path;
            if setup.config.audioType == "wav" then path == setup.config.audioPathOrText
            else if setup.config.audioType == "text" then IsSpeech(setup.config, tone, path)
            else path == ""
  {
    hide Exec, Next, Summary, IsSpeech, SynthPath;
    var k := DoneAt(setup, ts, j);
    if setup.config.audioType == "text" {
      PathIsSpeech(setup, tone);
    }
  }

  // ---- How often ----------------------------------------------------------------------------

  function Players(log: seq<Action>): nat {
    if log == [] then 0 else Players(log[..|log| - 1]) + if log[|log| - 1].StartPlayer? then 1 else 0
  }

  lemma {:induction false} NoneStarted(p: seq<Action>, q: seq<Action>)
    requires p <= q && forall i :: |p| <= i < |q| ==> !q[i].StartPlayer?
    ensures Players(q) == Players(p)
  {
    if p != q {
      assert p <= q[..|q| - 1];
      NoneStarted(p, q[..|q| - 1]);
    } else {
      assert p == q;
    }
  }

  lemma StartsOne(setup: Setup, s: Call, u: Tick)
    ensures Players(Next(setup, s, u).log) == Players(s.log) + if s.pc.PlayClock? then 1 else 0
  {
    hide Next, Summary, Asks, EventBelongs, Setup.PlayPath, Flows;
    var r := Next(setup, s, u);
    if s.pc.PlayClock? {
      NextInPlay(setup, s, u);
      assert r.log == s.log + [StartPlayer(setup.PlayPath())] && r.log[..|s.log|] == s.log;
    } else {
      NextTakes(setup, s, u);
      forall i | |s.log| <= i < |r.log|
        ensures !r.log[i].StartPlayer?
      {
        assert Belongs(setup, Spot(s, u), r.log[i]);
      }
      NoneStarted(s.log, r.log);
    }
  }

  predicate BeforePlayback(pc: Pc) {
    InReg(pc) || InDial(pc) || pc.DelayClock? || pc.DelayLoop? || pc.DelaySleep? || pc.DelayExit? || pc.PlayClock?
  }

  predicate AfterStart(pc: Pc) {
    (InPlay(pc) && !BeforePlayback(pc)) || InListen(pc)
  }

  lemma FlowsPastStart(from: Pc, to: Pc, cancelled: bool, got: bool)
    requires Flows(from, to, cancelled, got)
    ensures BeforePlayback(to) ==> BeforePlayback(from) && !from.PlayClock?
    ensures AfterStart(to) ==> AfterStart(from) || from.PlayClock?
    ensures from.PlayClock? ==> to.PlayLoop?
    ensures from.Bill? || from.Returned? ==> to.Returned?
  {
  }

  /** One player has been started once `run` is past the start of playback, none before, and never a second one. */
  lemma {:induction false} PlaysOnce(setup: Setup, ts: seq<Tick>)
    ensures var s := Exec(setup, ts);
            && Players(s.log) <= 1
            && (BeforePlayback(s.pc) ==> Players(s.log) == 0)
            && (AfterStart(s.pc) ==> Players(s.log) == 1)
  {
    hide Next, Flows, Summary, Begin;
    if ts == [] {
      NothingPlayedYet(setup);
    } else {
      var n := |ts| - 1;
      var s, r := Exec(setup, ts[..n]), Exec(setup, ts);
      PlaysOnce(setup, ts[..n]);
      StartsOne(setup, s, ts[n]);
      NextLeads(setup, s, ts[n]);
      if Flows(s.pc, r.pc, ts[n].cancelled, ts[n].event.Some?) {
        FlowsPastStart(s.pc, r.pc, ts[n].cancelled, ts[n].event.Some?);
      }
    }
  }

  lemma NothingPlayedYet(setup: Setup)
    ensures Exec(setup, []).log == [] && Exec(setup, []).pc == RegInit
  {
  }
}
