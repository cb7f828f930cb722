/**
 * The pure parts of the page script (web/app.js): naming the note of a
 * frequency, the bounded pitch history, the confidence colour and
 * opacity, and the vertical scale of the pitch plot.
 */
module WebApp {

  import opened Wrappers
  import opened RealMath
  import opened Decimal
  import opened WasmBridge

  /** Most entries the pitch history keeps. */
  const MaxHistory: nat := 100
  /** Pitch-class names, C first. */
  const NoteNames: seq<string> := ["C", "C#", "D", "D#", "E", "F", "F#", "G", "G#", "A", "A#", "B"]
  /** Below this frequency, in Hz, no note is named. */
  const LowestNamedFrequency: real := 20.0
  /** Text shown when no note is named. */
  const NoNote: string := "--"
  /**
   * What the page shows for a negative pitch class: the table read gives
   * `undefined`, and `undefined` plus a number is the number NaN.
   */
  const NotANumber: string := "NaN"

  /** JavaScript `Math.round`: halves round up. */
  function JsRound(x: real): (n: int)
    ensures x - 0.5 < n as real <= x + 0.5
  {
    (x + 0.5).Floor
  }

  /** JavaScript `n % 12`: the remainder takes the sign of the dividend. */
  function JsRem12(a: int): (r: int)
    ensures (a - r) % 12 == 0
    ensures 0 <= a ==> 0 <= r < 12
    ensures a < 0 ==> -12 < r <= 0
  {
    if 0 <= a then a % 12 else -((-a) % 12)
  }

  /**
   * Name of a MIDI note number: pitch class, then octave `floor(n / 12) - 1`.
   * A non-negative number reads back from its name; a negative one off the
   * octave boundary indexes the table below 0, and the sum is NaN.
   */
  function NoteName(noteNum: int): (s: string)
    ensures |s| > 0 && s[0] != NoNote[0]
    ensures 0 <= noteNum ==> ParseNoteName(s) == Some(noteNum)
    ensures noteNum < 0 && noteNum % 12 != 0 ==> s == NotANumber
  {
    var pitchClass := JsRem12(noteNum);
    ComposedNameParses(noteNum);
    if pitchClass < 0 then NotANumber
    else NoteNames[pitchClass] + IntToString(noteNum / 12 - 1)
  }

  /**
   * The note number of a frequency: 69 is A at 440 Hz, 12 numbers per
   * octave, rounded to the nearest semitone with halves going up.
   */
  function NoteNumber(frequency: real, m: Math): (n: int)
    ensures 12.0 * m.log2(frequency / 440.0) - 0.5 < (n - 69) as real
    ensures (n - 69) as real <= 12.0 * m.log2(frequency / 440.0) + 0.5
  {
    JsRound(12.0 * m.log2(frequency / 440.0)) + 69
  }

  /** `frequencyToNoteName`. */
  function FrequencyToNoteName(frequency: real, m: Math): (s: string)
    ensures frequency < LowestNamedFrequency <==> s == NoNote
  {
    if frequency < LowestNamedFrequency then NoNote
    else
      var name := NoteName(NoteNumber(frequency, m));
      assert name[0] != NoNote[0];
      name
  }

  /** Concert A: 440 Hz is named "A4". */
  lemma ConcertA(m: Math)
    requires Log2OfOneIsZero(m)
    ensures FrequencyToNoteName(440.0, m) == "A4"
  {
    assert m.log2(440.0 / 440.0) == 0.0;
    assert NoteNumber(440.0, m) == 69;
    assert NoteName(69) == "A" + NatToString(4);
  }

  /** The pitch class part of a note name, or None. */
  function PitchClassOf(name: string): Option<nat> {
    if name == "C" then Some(0) else if name == "C#" then Some(1)
    else if name == "D" then Some(2) else if name == "D#" then Some(3)
    else if name == "E" then Some(4) else if name == "F" then Some(5)
    else if name == "F#" then Some(6) else if name == "G" then Some(7)
    else if name == "G#" then Some(8) else if name == "A" then Some(9)
    else if name == "A#" then Some(10) else if name == "B" then Some(11)
    else None
  }

  /** Read a note name back into its note number. */
  function ParseNoteName(s: string): Option<int> {
    var split := if 2 <= |s| && s[1] == '#' then 2 else 1;
    if |s| < split then None
    else
      match (PitchClassOf(s[..split]), ParseInt(s[split..]))
      case (Some(pc), Some(octave)) => Some(12 * (octave + 1) + pc)
      case _ => None
  }

  lemma PitchClassOfName(k: nat)
    requires k < 12
    ensures PitchClassOf(NoteNames[k]) == Some(k)
    ensures |NoteNames[k]| == 1 || (|NoteNames[k]| == 2 && NoteNames[k][1] == '#')
  {
  }

  /**
   * The name the page composes for a non-negative note number, its pitch
   * class followed by its octave, reads back as that number.
   */
  lemma ComposedNameParses(noteNum: int)
    ensures 0 <= noteNum ==>
              ParseNoteName(NoteNames[noteNum % 12] + IntToString(noteNum / 12 - 1)) == Some(noteNum)
  {
    if 0 <= noteNum {
      var k := noteNum % 12;
      var octave := noteNum / 12 - 1;
      assert ParseNoteName(NoteNames[k] + IntToString(octave)) == Some(12 * (octave + 1) + k) by {
        PitchClassOfName(k);
        ParseIntToString(octave);
        ParseComposedName(NoteNames[k], k, IntToString(octave), octave);
      }
      assert 12 * (octave + 1) + k == noteNum;
    }
  }

  /** Distinct non-negative note numbers are never given the same name. */
  lemma NoteNamesDistinct(a: int, b: int)
    requires 0 <= a && 0 <= b && a != b
    ensures NoteName(a) != NoteName(b)
  {
  }

  /** A pitch-class name followed by the text of an integer reads back as that note. */
  lemma ParseComposedName(cls: string, k: nat, text: string, octave: int)
    requires PitchClassOf(cls) == Some(k)
    requires |cls| == 1 || (|cls| == 2 && cls[1] == '#')
    requires |text| > 0 && text[0] != '#'
    requires ParseInt(text) == Some(octave)
    ensures ParseNoteName(cls + text) == Some(12 * (octave + 1) + k)
  {
    var s := cls + text;
    assert s[..|cls|] == cls && s[|cls|..] == text;
    if |cls| == 1 {
      assert s[1] == text[0];
    }
  }

  /**
   * Note -1 has no table entry and shows as NaN, while note -12 lies on the
   * octave boundary, where JavaScript's remainder is 0, and is named "C-2".
   */
  lemma NegativeNoteName()
    ensures NoteName(-1) == NotANumber
    ensures NoteName(-12) == "C" + IntToString(-2)
  {
  }

  /** One entry of the pitch history. */
  datatype HistoryEntry = HistoryEntry(pitch: real, confidence: real)

  /** Append an entry and drop the oldest one when the history is over its bound. */
  function PushHistory(history: seq<HistoryEntry>, e: HistoryEntry): (h: seq<HistoryEntry>)
    requires |history| <= MaxHistory
    ensures |h| == if |history| < MaxHistory then |history| + 1 else MaxHistory
    ensures h == (history + [e])[|history| + 1 - |h|..]
  {
    var pushed := history + [e];
    if |pushed| > MaxHistory then pushed[1..] else pushed
  }

  /** Pushing a run of entries one by one. */
  function PushAll(history: seq<HistoryEntry>, entries: seq<HistoryEntry>): (h: seq<HistoryEntry>)
    requires |history| <= MaxHistory
    ensures |h| <= MaxHistory
    decreases |entries|
  {
    if |entries| == 0 then history
    else PushAll(PushHistory(history, entries[0]), entries[1..])
  }

  /** The last min(n, |s|) elements of s. */
  function LastN<T>(s: seq<T>, n: nat): seq<T> {
    if |s| <= n then s else s[|s| - n..]
  }

  /**
   * However many entries arrive, the history holds exactly the most recent
   * ones, at most 100 of them, oldest first.
   */
  lemma {:induction false} HistoryKeepsMostRecent(history: seq<HistoryEntry>, entries: seq<HistoryEntry>)
    requires |history| <= MaxHistory
    ensures PushAll(history, entries) == LastN(history + entries, MaxHistory)
    decreases |entries|
  {
    if |entries| > 0 {
      var e := entries[0];
      var rest := entries[1..];
      var next := PushHistory(history, e);
      calc {
        PushAll(history, entries);
        PushAll(next, rest);
        { HistoryKeepsMostRecent(next, rest); }
        LastN(next + rest, MaxHistory);
        { PushIsLastN(history, e); }
        LastN(LastN(history + [e], MaxHistory) + rest, MaxHistory);
        { LastNAppend(history + [e], rest); }
        LastN(history + [e] + rest, MaxHistory);
        { assert history + [e] + rest == history + entries; }
        LastN(history + entries, MaxHistory);
      }
    }
  }

  /** One push keeps the last 100 entries of the history extended by the new one. */
  lemma PushIsLastN(history: seq<HistoryEntry>, e: HistoryEntry)
    requires |history| <= MaxHistory
    ensures PushHistory(history, e) == LastN(history + [e], MaxHistory)
  {
  }

  /** Trimming before appending changes nothing once the result is trimmed again. */
  lemma LastNAppend<T>(s: seq<T>, t: seq<T>)
    ensures LastN(LastN(s, MaxHistory) + t, MaxHistory) == LastN(s + t, MaxHistory)
  {
    if |s| > MaxHistory {
      var u := s[|s| - MaxHistory..];
      var k := |s| - MaxHistory;
      assert s + t == s[..k] + (u + t);
      if |u + t| > MaxHistory {
        assert (s + t)[|s + t| - MaxHistory..] == (u + t)[|u + t| - MaxHistory..];
      }
    }
  }

  /** Colour of the confidence bar. */
  datatype Colour = Green | Yellow | Red

  /** Confidence above 0.5 is green, above 0.2 yellow, anything else red. */
  function ColourBand(confidence: real): (c: Colour)
    ensures c == Green <==> confidence > 0.5
    ensures c == Yellow <==> 0.2 < confidence <= 0.5
    ensures c == Red <==> confidence <= 0.2
  {
    if confidence > 0.5 then Green
    else if confidence > 0.2 then Yellow
    else Red
  }

  function BandRank(c: Colour): nat {
    match c
    case Red => 0
    case Yellow => 1
    case Green => 2
  }

  /** More confidence never gives a worse colour. */
  lemma ColourBandMonotone(a: real, b: real)
    requires a <= b
    ensures BandRank(ColourBand(a)) <= BandRank(ColourBand(b))
  {
  }

  /** Opacity of the pitch read-out: the confidence, but never below 0.3. */
  function Opacity(confidence: real): (o: real)
    ensures 0.3 <= o && confidence <= o
    ensures o == confidence || o == 0.3
  {
    if 0.3 < confidence then confidence else 0.3
  }

  /** What the page shows for the latest analysis. */
  datatype Display = Display(
    history: seq<HistoryEntry>,
    barWidth: real,
    colour: Option<Colour>,
    opacity: real,
    note: string)

  /**
   * `handleAnalysisResults`: only the last frame of a batch is shown and
   * recorded; an empty batch leaves the page as it was.
   */
  function HandleAnalysisResults(d: Display, results: seq<FrameResult>, m: Math): (e: Display)
    requires |d.history| <= MaxHistory
    ensures |e.history| <= MaxHistory
    ensures |results| == 0 ==> e == d
    ensures |results| > 0 ==>
              var last := results[|results| - 1];
              && e.history == PushHistory(d.history, HistoryEntry(last.pitch, last.confidence))
              && e.colour == Some(ColourBand(last.confidence))
              && e.barWidth == last.confidence * 100.0
              && e.opacity == Opacity(last.confidence)
              && e.note == FrequencyToNoteName(last.pitch, m)
  {
    if |results| == 0 then d
    else
      var last := results[|results| - 1];
      Display(
        PushHistory(d.history, HistoryEntry(last.pitch, last.confidence)),
        last.confidence * 100.0,
        Some(ColourBand(last.confidence)),
        Opacity(last.confidence),
        FrequencyToNoteName(last.pitch, m))
  }

  /** A batch has the same effect as its last frame alone. */
  lemma OnlyLastResultMatters(d: Display, results: seq<FrameResult>, m: Math)
    requires |d.history| <= MaxHistory
    requires |results| > 0
    ensures HandleAnalysisResults(d, results, m) == HandleAnalysisResults(d, [results[|results| - 1]], m)
  {
  }

  /** Lowest and highest pitch of the plot, in Hz. */
  const MinPitch: real := 50.0
  const MaxPitch: real := 800.0

  /** Canvas row of a pitch: 50 Hz at the bottom edge, 800 Hz at the top. */
  function ScaleY(pitch: real, height: real): real {
    height - ((pitch - MinPitch) / (MaxPitch - MinPitch)) * height
  }

  /** The plot's range spans the canvas from bottom to top, and higher pitches are drawn higher. */
  lemma ScaleYSpansCanvas(height: real, p: real, q: real)
    requires 0.0 < height
    requires p < q
    ensures ScaleY(MinPitch, height) == height
    ensures ScaleY(MaxPitch, height) == 0.0
    ensures ScaleY(q, height) < ScaleY(p, height)
  {
    assert ScaleY(p, height) - ScaleY(q, height) == ((q - p) / 750.0) * height;
    MulPositive((q - p) / 750.0, height);
  }
}
