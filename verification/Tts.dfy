/** `synth` of src/tts_stub.cpp: text is split into words, every word becomes half a second of tone,
    and the samples go into a WAV file. */
module Tts {
  import opened MachineInts
  import opened WavFile

  // ---- Words --------------------------------------------------------------------------------

  /** `isspace` in the C locale. */
  predicate IsSpace(c: char) {
    c == ' ' || c == '\t' || c == '\n' || c == '\U{000B}' || c == '\U{000C}' || c == '\r'
  }

  /** The white space of the C locale by its codes: the space, and tab to carriage return. */
  lemma SpaceCodes(c: char)
    ensures IsSpace(c) <==> c as int == 32 || 9 <= c as int <= 13
  {
  }

  /** A word starts at a character that is no space and follows none. */
  predicate StartsWord(text: string, i: nat)
    requires i < |text|
  {
    !IsSpace(text[i]) && (i == 0 || IsSpace(text[i - 1]))
  }

  /** Where the words start, in order. */
  function Starts(text: string): (starts: seq<nat>)
    ensures forall k :: 0 <= k < |starts| ==> starts[k] < |text|
  {
    if text == "" then []
    else Starts(text[..|text| - 1]) + if StartsWord(text, |text| - 1) then [|text| - 1] else []
  }

  /** Where the word that `text[i]` is part of ends. */
  function WordEnd(text: string, i: nat): (end: nat)
    requires i <= |text|
    ensures i <= end <= |text| && (end < |text| ==> IsSpace(text[end]))
    ensures forall k :: i <= k < end ==> !IsSpace(text[k])
    decreases |text| - i
  {
    if i == |text| || IsSpace(text[i]) then i else WordEnd(text, i + 1)
  }

  function WordCount(text: string): nat {
    |Starts(text)|
  }

  function NonSpace(text: string): string {
    if text == "" then ""
    else NonSpace(text[..|text| - 1]) + if IsSpace(text[|text| - 1]) then "" else [text[|text| - 1]]
  }

  function Joined(words: seq<string>): string {
    if words == [] then "" else Joined(words[..|words| - 1]) + words[|words| - 1]
  }

  predicate IsWord(w: string) {
    w != "" && forall i :: 0 <= i < |w| ==> !IsSpace(w[i])
  }

  lemma {:induction false} NoStarts(text: string, from: nat, to: nat)
    requires from <= to <= |text| && forall i :: from <= i < to ==> IsSpace(text[i])
    ensures Starts(text[..to]) == Starts(text[..from]) && NonSpace(text[..to]) == NonSpace(text[..from])
  {
    if from < to {
      NoStarts(text, from, to - 1);
      assert text[..to][..to - 1] == text[..to - 1];
    }
  }

  lemma {:induction false} OneStart(text: string, from: nat, to: nat)
    requires from < to <= |text| && forall i :: from <= i < to ==> !IsSpace(text[i])
    requires from == 0 || IsSpace(text[from - 1])
    ensures Starts(text[..to]) == Starts(text[..from]) + [from]
    ensures NonSpace(text[..to]) == NonSpace(text[..from]) + text[from..to]
  {
    assert text[..to][..to - 1] == text[..to - 1];
    if from < to - 1 {
      OneStart(text, from, to - 1);
    }
  }

  lemma {:induction false} EndsThere(text: string, from: nat, to: nat)
    requires from <= to <= |text| && forall i :: from <= i < to ==> !IsSpace(text[i])
    requires to == |text| || IsSpace(text[to])
    ensures WordEnd(text, from) == to
    decreases |text| - from
  {
    if from < to {
      EndsThere(text, from + 1, to);
    }
  }

  /** `stream >> word` from position `at`: skips space, then reads to the next space or the end. */
  method Extract(text: string, at: nat) returns (word: string, next: nat)
    requires at <= |text| && (at == 0 || at == |text| || IsSpace(text[at]))
    ensures at <= next <= |text| && (next == |text| || IsSpace(text[next]))
    ensures word == "" ==> next == |text| && Starts(text[..next]) == Starts(text[..at])
    ensures word != "" ==> IsWord(word) && at < next
    ensures word != "" ==> exists from: nat :: from < next && word == text[from..next] && WordEnd(text, from) == next
                                               && Starts(text[..next]) == Starts(text[..at]) + [from]
    ensures NonSpace(text[..next]) == NonSpace(text[..at]) + word
  {
    var from := at;
    while from < |text| && IsSpace(text[from])
      invariant at <= from <= |text| && forall i :: at <= i < from ==> IsSpace(text[i])
    {
      from := from + 1;
    }
    NoStarts(text, at, from);
    next := from;
    while next < |text| && !IsSpace(text[next])
      invariant from <= next <= |text| && forall i :: from <= i < next ==> !IsSpace(text[i])
    {
      next := next + 1;
    }
    word := text[from..next];
    if from < next {
      OneStart(text, from, next);
      EndsThere(text, from, next);
    }
  }

  /** `words[k]` is the text from the `k`th start of a word to its end. */
  ghost predicate WordsLie(text: string, starts: seq<nat>, words: seq<string>) {
    && |words| == |starts|
    && forall k :: 0 <= k < |words| ==> starts[k] < |text| && words[k] == text[starts[k]..WordEnd(text, starts[k])]
  }

  lemma OneMoreLies(text: string, starts: seq<nat>, words: seq<string>, from: nat, word: string)
    requires WordsLie(text, starts, words) && from < |text| && word == text[from..WordEnd(text, from)]
    ensures WordsLie(text, starts + [from], words + [word]) && Joined(words + [word]) == Joined(words) + word
  {
    hide WordEnd;
    assert (words + [word])[..|words|] == words;
  }

  /** Every word in order, none split and none missed: the stretches between spaces. */
  method Words(text: string) returns (words: seq<string>)
    ensures WordsLie(text, Starts(text), words) && |words| == WordCount(text) && Joined(words) == NonSpace(text)
    ensures forall i :: 0 <= i < |words| ==> IsWord(words[i])
  {
    words := [];
    var at := 0;
    assert text[..0] == "";
    while true
      invariant at <= |text| && (at == 0 || at == |text| || IsSpace(text[at]))
      invariant WordsLie(text, Starts(text[..at]), words) && Joined(words) == NonSpace(text[..at])
      invariant forall i :: 0 <= i < |words| ==> IsWord(words[i])
      decreases |text| - at
    {
      hide WordsLie, Joined, WordEnd;
      var word, next := Extract(text, at);
      if word == "" {
        assert text[..next] == text;
        break;
      }
      ghost var from: nat :| from < next && word == text[from..next] && WordEnd(text, from) == next
                             && Starts(text[..next]) == Starts(text[..at]) + [from];
      OneMoreLies(text, Starts(text[..at]), words, from, word);
      words, at := words + [word], next;
    }
  }

  // ---- Samples -------------------------------------------------------------------------------

  const WORD_SAMPLES: nat := 4000
  const PAUSE_SAMPLES: nat := 1600
  const STRIDE: nat := 5600

  /** Half a second of tone; the sine itself is left open. */
  type Tone = s: seq<int16> | |s| == 4000 witness seq(4000, _ => 0)

  function SampleCount(n: nat): nat {
    if n == 0 then 0 else STRIDE * n - PAUSE_SAMPLES
  }

  function SampleAt(tone: Tone, k: nat): int16 {
    if k % STRIDE < WORD_SAMPLES then tone[k % STRIDE] else 0
  }

  /** The samples for `n` words, position by position. */
  function Spoken(tone: Tone, n: nat): (samples: seq<int16>)
    ensures |samples| == SampleCount(n)
  {
    seq(SampleCount(n), k requires 0 <= k => SampleAt(tone, k))
  }

  lemma WithinWord(tone: Tone, i: nat, j: nat)
    requires j < STRIDE
    ensures SampleAt(tone, STRIDE * i + j) == if j < WORD_SAMPLES then tone[j] else 0
  {
    assert (STRIDE * i + j) % STRIDE == j;
  }

  /** One word is a tone and, unless it is the last, a pause. */
  method AppendWord(tone: Tone, samples: seq<int16>, i: nat, last: bool) returns (more: seq<int16>)
    requires |samples| == STRIDE * i
    ensures |more| == STRIDE * i + WORD_SAMPLES + if last then 0 else PAUSE_SAMPLES
    ensures more[..|samples|] == samples
    ensures forall k :: |samples| <= k < |more| ==> more[k] == SampleAt(tone, k)
  {
    more := samples;
    for j := 0 to WORD_SAMPLES
      invariant |more| == STRIDE * i + j && more[..|samples|] == samples
      invariant forall k :: |samples| <= k < |more| ==> more[k] == SampleAt(tone, k)
    {
      WithinWord(tone, i, j);
      more := more + [tone[j]];
    }
    if !last {
      var spoken := |more|;
      more := more + seq(PAUSE_SAMPLES, _ => 0);
      forall k | spoken <= k < |more|
        ensures more[k] == SampleAt(tone, k)
      {
        WithinWord(tone, i, k - STRIDE * i);
      }
    }
  }

  method Speak(tone: Tone, words: seq<string>) returns (samples: seq<int16>)
    ensures samples == Spoken(tone, |words|)
  {
    samples := [];
    for i := 0 to |words|
      invariant |samples| == if i == 0 then 0 else if i < |words| then STRIDE * i else STRIDE * i - PAUSE_SAMPLES
      invariant forall k :: 0 <= k < |samples| ==> samples[k] == SampleAt(tone, k)
    {
      var more := AppendWord(tone, samples, i, i + 1 == |words|);
      assert forall k :: 0 <= k < |samples| ==> more[k] == samples[k];
      samples := more;
    }
  }

  // ---- synth ------------------------------------------------------------------------------------

  /** The path `synth` returns: none when there is nothing to say. */
  function SynthPath(text: string, outdir: string): string {
    if WordCount(text) == 0 then "" else outdir + "/tts_stub.wav"
  }

  /** What `synth` writes, by path. */
  function SynthFiles(text: string, outdir: string, tone: Tone): map<string, seq<byte>> {
    if WordCount(text) == 0 then map[] else map[outdir + "/tts_stub.wav" := WavBytes(Spoken(tone, WordCount(text)))]
  }

  method Synth(text: string, outdir: string, tone: Tone) returns (path: string, files: map<string, seq<byte>>)
    ensures path == SynthPath(text, outdir) && (path == "" <==> WordCount(text) == 0)
    ensures files == SynthFiles(text, outdir, tone)
    ensures files == if path == "" then map[] else map[path := WavBytes(Spoken(tone, WordCount(text)))]
  {
    hide WavBytes, Spoken;
    var words := Words(text);
    if words == [] {
      return "", map[];
    }
    var samples := Speak(tone, words);
    path := outdir + "/tts_stub.wav";
    var file := new OutFile();
    file.WriteWav(samples);
    files := map[path := file.bytes];
  }

  /** Word `i` lies at 5600 * i: 4000 samples of tone, and silence up to the next word. */
  lemma SpokenLayout(tone: Tone, n: nat, i: nat, j: nat)
    requires i < n && j < STRIDE && STRIDE * i + j < SampleCount(n)
    ensures |Spoken(tone, n)| == 5600 * n - 1600
    ensures Spoken(tone, n)[5600 * i + j] == if j < 4000 then tone[j] else 0
  {
    WithinWord(tone, i, j);
  }

  /** Up to 383479 words the file is sound and reads back as the samples; with more it never does. */
  lemma SpeechFits(tone: Tone, n: nat)
    ensures ReadWav(WavBytes(Spoken(tone, n))) == Wav(TELEPHONE, Spoken(tone, n)) <==> n <= 383479
  {
    hide ReadWav, WavBytes, Spoken;
    WavRoundTrip(Spoken(tone, n));
  }

  /** As long as it fits, the file tells how many words there were, and nothing else about the text. */
  lemma FileTellsWordCount(tone: Tone, text: string, other: string)
    requires WordCount(text) <= 383479 && WordCount(other) <= 383479
    ensures WavBytes(Spoken(tone, WordCount(text))) == WavBytes(Spoken(tone, WordCount(other)))
       <==> WordCount(text) == WordCount(other)
  {
    hide ReadWav, WavBytes;
    SpeechFits(tone, WordCount(text));
    SpeechFits(tone, WordCount(other));
  }
}
