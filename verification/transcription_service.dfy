/**
 * The transcription service: reading the recognizer's JSON output back into
 * speaker segments, rendering them as a text transcript, and the naming and
 * validation rules of `transcribe_audio`. The cloud calls are an outcome
 * passed in: either a failure message or the bucket's objects after the
 * recognizer has written its output.
 */
module TranscriptionService {
  import opened Wrappers
  import opened PyStrings
  import opened SpeakerRuns

  /** One entry of an alternative's `words` list; a missing key is `None`. */
  datatype WordInfo = WordInfo(speakerLabel: Option<string>, speakerTag: Option<int>, word: Option<string>)

  datatype Alternative = Alternative(words: Option<seq<WordInfo>>)

  datatype RecognitionResult = RecognitionResult(alternatives: Option<seq<Alternative>>)

  /** A parsed result file: the top-level object and its optional `results` list. */
  datatype ResultFile = ResultFile(results: Option<seq<RecognitionResult>>)

  /** An object in the bucket, its content already parsed. */
  datatype Blob = Blob(name: string, content: ResultFile)

  /** The speaker of a word: its label, else its tag, else the label "Unknown". */
  function SpeakerOf(w: WordInfo): Speaker {
    match w.speakerLabel
    case Some(l) => Label(l)
    case None =>
      match w.speakerTag
      case Some(t) => Tag(t)
      case None => Label("Unknown")
  }

  /** The text of a word, "" when the key is missing. */
  function WordOf(w: WordInfo): string {
    w.word.GetOr("")
  }

  function Tokens(words: seq<WordInfo>): (ts: seq<Token>)
    ensures |ts| == |words|
    ensures forall i :: 0 <= i < |words| ==> ts[i] == Token(SpeakerOf(words[i]), WordOf(words[i]))
  {
    seq(|words|, i requires 0 <= i < |words| => Token(SpeakerOf(words[i]), WordOf(words[i])))
  }

  /** The word list the formatter reads from a result: that of the first of a non-empty list of alternatives. */
  function ReadWords(res: RecognitionResult): Option<seq<WordInfo>> {
    match res.alternatives
    case Some(alts) => if |alts| > 0 then alts[0].words else None
    case None => None
  }

  /** The runs of one result; the grouping starts afresh for every result. */
  function ResultRuns(res: RecognitionResult): seq<Run> {
    match ReadWords(res)
    case Some(words) => Group(Tokens(words))
    case None => []
  }

  function ResultsRuns(results: seq<RecognitionResult>): seq<Run> {
    Flatten(seq(|results|, i requires 0 <= i < |results| => ResultRuns(results[i])))
  }

  function FileRuns(f: ResultFile): seq<Run> {
    match f.results
    case Some(results) => ResultsRuns(results)
    case None => []
  }

  /** Only objects whose name ends in ".json" are read. */
  function BlobRuns(b: Blob): seq<Run> {
    if EndsWith(b.name, ".json") then FileRuns(b.content) else []
  }

  function BlobsRuns(blobs: seq<Blob>): seq<Run> {
    Flatten(seq(|blobs|, i requires 0 <= i < |blobs| => BlobRuns(blobs[i])))
  }

  /** The objects a prefix listing returns, in the store's order. */
  function Listed(store: seq<Blob>, prefix: string): (bs: seq<Blob>)
    ensures forall b :: b in bs ==> b in store && StartsWith(b.name, prefix)
    ensures forall b :: b in store && StartsWith(b.name, prefix) ==> b in bs
  {
    if store == [] then []
    else
      var last := store[|store| - 1];
      Listed(store[..|store| - 1], prefix) + (if StartsWith(last.name, prefix) then [last] else [])
  }

  /** Listing keeps the store's order: the listing of two runs of objects is the two listings, in turn. */
  lemma {:induction false} ListedAppend(a: seq<Blob>, b: seq<Blob>, prefix: string)
    ensures Listed(a + b, prefix) == Listed(a, prefix) + Listed(b, prefix)
    decreases |b|
  {
    if b == [] {
      assert a + b == a;
    } else {
      var last := b[|b| - 1];
      var front := b[..|b| - 1];
      assert (a + b)[..|a + b| - 1] == a + front;
      ListedAppend(a, front, prefix);
    }
  }

  /** The transcript's banner: a rule of 80 '=', the title line, the rule again and a blank line. */
  function Banner(title: string): string {
    Repeat('=', 80) + "\n" + title + "\n" + Repeat('=', 80) + "\n\n"
  }

  /** One segment's block: the "Speaker <label>:" line, then the text and a blank line. */
  function Block(s: Segment): string {
    ("Speaker " + SpeakerText(s.speaker) + ":\n") + (s.text + "\n\n")
  }

  /** The strings of a list, concatenated in order. */
  function Concat(parts: seq<string>): string {
    if parts == [] then "" else Concat(parts[..|parts| - 1]) + parts[|parts| - 1]
  }

  function Blocks(segs: seq<Segment>): string {
    Concat(seq(|segs|, i requires 0 <= i < |segs| => Block(segs[i])))
  }

  /** The transcript text: the sentinel when there is nothing, else the header and one block per segment. */
  function Render(segs: seq<Segment>): string {
    if segs == [] then "No transcription results found."
    else Banner("TRANSCRIPTION WITH SPEAKER DIARIZATION (Chirp 3 Model)") + Blocks(segs)
  }

  /** The folder URI with the bucket's "gs://<bucket>/" removed, used as the listing prefix. */
  function OutputPrefix(folder: string, bucket: string): string {
    ReplaceAll(folder, "gs://" + bucket + "/", "")
  }

  /** What the formatter returns for a folder, given the bucket's objects. */
  function FormattedTranscription(folder: string, bucket: string, store: seq<Blob>): string {
    Render(Segments(BlobsRuns(Listed(store, OutputPrefix(folder, bucket)))))
  }

  // ---------------------------------------------------------------------
  // The formatter's loops.

  lemma SegmentsAppend(a: seq<Run>, b: seq<Run>)
    ensures Segments(a + b) == Segments(a) + Segments(b)
  {
  }

  /**
   * The inner loop over one alternative's words: the current speaker and
   * text start empty, a change of speaker flushes the current segment, and
   * the last segment is flushed at the end.
   */
  method AppendWordSegments(words: seq<WordInfo>, segs: seq<Segment>) returns (out: seq<Segment>)
    ensures out == segs + Segments(Group(Tokens(words)))
  {
    ghost var ts := Tokens(words);
    ghost var done: seq<Run> := [];
    out := segs;
    var currentSpeaker: Option<Speaker> := None;
    var currentText: seq<string> := [];
    var i := 0;
    while i < |words|
      invariant 0 <= i <= |words|
      invariant out == segs + Segments(done)
      invariant i == 0 ==> currentSpeaker.None? && done == []
      invariant i > 0 ==> currentSpeaker.Some?
      invariant currentSpeaker.Some? ==> Group(ts[..i]) == done + [Run(currentSpeaker.value, currentText)]
    {
      var speakerLabel := SpeakerOf(words[i]);
      var word := WordOf(words[i]);
      assert ts[i] == Token(speakerLabel, word);
      if Some(speakerLabel) != currentSpeaker {
        if currentSpeaker.Some? {
          GroupExtendNew(ts, i, done, currentSpeaker.value, currentText);
          SegmentsFlush(segs, done, currentSpeaker.value, currentText);
          out := out + [Segment(currentSpeaker.value, JoinSpace(currentText))];
          done := done + [Run(currentSpeaker.value, currentText)];
        } else {
          assert i == 0 && done == [];
          GroupFirst(ts);
        }
        currentSpeaker := Some(speakerLabel);
        currentText := [word];
        assert Group(ts[..i + 1]) == done + [Run(speakerLabel, currentText)];
      } else {
        GroupExtendSame(ts, i, done, currentSpeaker.value, currentText);
        currentText := currentText + [word];
        assert Group(ts[..i + 1]) == done + [Run(currentSpeaker.value, currentText)];
      }
      i := i + 1;
      assert Group(ts[..i]) == done + [Run(currentSpeaker.value, currentText)];
    }
    if currentSpeaker.Some? {
      SegmentsFlush(segs, done, currentSpeaker.value, currentText);
      out := out + [Segment(currentSpeaker.value, JoinSpace(currentText))];
      done := done + [Run(currentSpeaker.value, currentText)];
    }
    assert ts[..|words|] == ts;
  }

  /** The nested loops over objects, results and words, collecting segments in order. */
  method CollectSegments(blobs: seq<Blob>) returns (segs: seq<Segment>)
    ensures segs == Segments(BlobsRuns(blobs))
  {
    segs := [];
    var b := 0;
    while b < |blobs|
      invariant 0 <= b <= |blobs|
      invariant segs == Segments(BlobsRuns(blobs[..b]))
    {
      var blob := blobs[b];
      ghost var start := segs;
      BlobSegmentsSnoc(blobs, b);
      if EndsWith(blob.name, ".json") {
        var result := blob.content;
        if result.results.Some? {
          var results := result.results.value;
          var r := 0;
          while r < |results|
            invariant 0 <= r <= |results|
            invariant segs == start + Segments(ResultsRuns(results[..r]))
          {
            var res := results[r];
            ResultSegmentsSnoc(start, results, r);
            if res.alternatives.Some? && |res.alternatives.value| > 0 {
              var alternative := res.alternatives.value[0];
              if alternative.words.Some? {
                segs := AppendWordSegments(alternative.words.value, segs);
              } else {
                NoSegments(segs);
              }
            } else {
              NoSegments(segs);
            }
            r := r + 1;
          }
          assert results[..|results|] == results;
        } else {
          NoSegments(segs);
        }
      } else {
        NoSegments(segs);
      }
      b := b + 1;
    }
    assert blobs[..|blobs|] == blobs;
  }

  lemma NoSegments(segs: seq<Segment>)
    ensures segs + Segments([]) == segs
  {
  }

  lemma BlobSegmentsSnoc(blobs: seq<Blob>, b: nat)
    requires b < |blobs|
    ensures Segments(BlobsRuns(blobs[..b + 1])) == Segments(BlobsRuns(blobs[..b])) + Segments(BlobRuns(blobs[b]))
  {
    BlobsRunsSnoc(blobs, b);
    SegmentsAppend(BlobsRuns(blobs[..b]), BlobRuns(blobs[b]));
  }

  lemma ResultSegmentsSnoc(start: seq<Segment>, results: seq<RecognitionResult>, r: nat)
    requires r < |results|
    ensures start + Segments(ResultsRuns(results[..r + 1]))
      == (start + Segments(ResultsRuns(results[..r]))) + Segments(ResultRuns(results[r]))
  {
    ResultsRunsSnoc(results, r);
    SegmentsAppend(ResultsRuns(results[..r]), ResultRuns(results[r]));
  }

  /** The output text, built up by appending as the formatter does. */
  method RenderTranscription(segs: seq<Segment>) returns (output: string)
    ensures output == Render(segs)
  {
    if segs == [] {
      return "No transcription results found.";
    }
    var title := "TRANSCRIPTION WITH SPEAKER DIARIZATION (Chirp 3 Model)";
    output := Repeat('=', 80) + "\n";
    output := output + title + "\n";
    output := output + Repeat('=', 80) + "\n\n";
    ghost var banner := output;
    var i := 0;
    while i < |segs|
      invariant 0 <= i <= |segs|
      invariant output == banner + Blocks(segs[..i])
    {
      var heading := "Speaker " + SpeakerText(segs[i].speaker) + ":\n";
      var body := segs[i].text + "\n\n";
      RenderStep(banner, segs, i, output, heading, body);
      output := output + heading;
      output := output + body;
      i := i + 1;
    }
    assert segs[..|segs|] == segs;
  }

  lemma RenderStep(banner: string, segs: seq<Segment>, i: nat, output: string, heading: string, body: string)
    requires i < |segs| && output == banner + Blocks(segs[..i]) && heading + body == Block(segs[i])
    ensures (output + heading) + body == banner + Blocks(segs[..i + 1])
  {
    var prev, block := Blocks(segs[..i]), Block(segs[i]);
    AppendAssoc(output, heading, body);
    assert (output + heading) + body == output + block;
    AppendAssoc(banner, prev, block);
    BlocksSnoc(segs, i);
  }

  /** `_download_and_format_transcription`: list the folder's objects, collect segments, render. */
  method DownloadAndFormatTranscription(folder: string, bucket: string, store: seq<Blob>) returns (text: string)
    ensures text == FormattedTranscription(folder, bucket, store)
  {
    var prefix := OutputPrefix(folder, bucket);
    var blobs := Listed(store, prefix);
    var segs := CollectSegments(blobs);
    text := RenderTranscription(segs);
  }

  // ---------------------------------------------------------------------
  // What the formatter promises.

  lemma ResultsRunsAppend(a: seq<RecognitionResult>, b: seq<RecognitionResult>)
    ensures ResultsRuns(a + b) == ResultsRuns(a) + ResultsRuns(b)
  {
    var pa := seq(|a|, i requires 0 <= i < |a| => ResultRuns(a[i]));
    var pb := seq(|b|, i requires 0 <= i < |b| => ResultRuns(b[i]));
    assert seq(|a + b|, i requires 0 <= i < |a + b| => ResultRuns((a + b)[i])) == pa + pb;
    FlattenAppend(pa, pb);
  }

  /** Segments come in object order: the objects' contributions are simply concatenated. */
  lemma BlobsRunsAppend(a: seq<Blob>, b: seq<Blob>)
    ensures BlobsRuns(a + b) == BlobsRuns(a) + BlobsRuns(b)
  {
    var pa := seq(|a|, i requires 0 <= i < |a| => BlobRuns(a[i]));
    var pb := seq(|b|, i requires 0 <= i < |b| => BlobRuns(b[i]));
    assert seq(|a + b|, i requires 0 <= i < |a + b| => BlobRuns((a + b)[i])) == pa + pb;
    FlattenAppend(pa, pb);
  }

  lemma ResultsRunsSnoc(results: seq<RecognitionResult>, r: nat)
    requires r < |results|
    ensures ResultsRuns(results[..r + 1]) == ResultsRuns(results[..r]) + ResultRuns(results[r])
  {
    assert results[..r + 1] == results[..r] + [results[r]];
    ResultsRunsAppend(results[..r], [results[r]]);
    assert Flatten([ResultRuns(results[r])]) == ResultRuns(results[r]) by {
      assert [ResultRuns(results[r])][..0] == [];
    }
    assert seq(1, i requires 0 <= i < 1 => ResultRuns([results[r]][i])) == [ResultRuns(results[r])];
  }

  lemma BlobsRunsSnoc(blobs: seq<Blob>, b: nat)
    requires b < |blobs|
    ensures BlobsRuns(blobs[..b + 1]) == BlobsRuns(blobs[..b]) + BlobRuns(blobs[b])
  {
    assert blobs[..b + 1] == blobs[..b] + [blobs[b]];
    BlobsRunsAppend(blobs[..b], [blobs[b]]);
    assert Flatten([BlobRuns(blobs[b])]) == BlobRuns(blobs[b]) by {
      assert [BlobRuns(blobs[b])][..0] == [];
    }
    assert seq(1, i requires 0 <= i < 1 => BlobRuns([blobs[b]][i])) == [BlobRuns(blobs[b])];
  }

  /** Keeps only the objects whose name ends in ".json". */
  function JsonOnly(blobs: seq<Blob>): (js: seq<Blob>)
    ensures forall b :: b in js <==> b in blobs && EndsWith(b.name, ".json")
  {
    if blobs == [] then []
    else
      var last := blobs[|blobs| - 1];
      JsonOnly(blobs[..|blobs| - 1]) + (if EndsWith(last.name, ".json") then [last] else [])
  }

  /** Objects not ending in ".json" contribute nothing. */
  lemma {:induction false} OnlyJsonObjectsRead(blobs: seq<Blob>)
    ensures BlobsRuns(blobs) == BlobsRuns(JsonOnly(blobs))
  {
    if blobs != [] {
      var n := |blobs| - 1;
      var init, last := blobs[..n], blobs[n];
      OnlyJsonObjectsRead(init);
      BlobsRunsSnoc(blobs, n);
      assert blobs[..n + 1] == blobs;
      if EndsWith(last.name, ".json") {
        assert JsonOnly(blobs) == JsonOnly(init) + [last];
        BlobsRunsAppend(JsonOnly(init), [last]);
        BlobsRunsSingle(last);
      } else {
        assert JsonOnly(blobs) == JsonOnly(init);
        assert BlobRuns(last) == [];
      }
    }
  }

  lemma BlobsRunsSingle(b: Blob)
    ensures BlobsRuns([b]) == BlobRuns(b)
  {
    assert seq(1, i requires 0 <= i < 1 => BlobRuns([b][i])) == [BlobRuns(b)];
    assert Flatten([BlobRuns(b)]) == BlobRuns(b) by {
      assert [BlobRuns(b)][..0] == [];
    }
  }

  /**
   * Runs never span two results: when two consecutive results each hold one
   * word by the same speaker, grouping their words together would give one
   * run, but the formatter gives two.
   */
  lemma NoMergeAcrossResults(r1: RecognitionResult, r2: RecognitionResult, w1: WordInfo, w2: WordInfo)
    requires ReadWords(r1) == Some([w1]) && ReadWords(r2) == Some([w2])
    requires SpeakerOf(w1) == SpeakerOf(w2)
    ensures |Group(Tokens([w1, w2]))| == 1
    ensures ResultsRuns([r1, r2]) == [Run(SpeakerOf(w1), [WordOf(w1)]), Run(SpeakerOf(w2), [WordOf(w2)])]
  {
    var t1, t2 := Token(SpeakerOf(w1), WordOf(w1)), Token(SpeakerOf(w2), WordOf(w2));
    assert Tokens([w1, w2]) == [t1, t2];
    SameSpeakerPair(t1, t2);
    SingleWordResult(r1, w1);
    SingleWordResult(r2, w2);
    ResultsRunsPair(r1, r2);
  }

  /** Two tokens by one speaker, grouped together, make one run. */
  lemma SameSpeakerPair(t1: Token, t2: Token)
    requires t1.speaker == t2.speaker
    ensures |Group([t1, t2])| == 1
  {
    assert [t1, t2] == [t1] + [t2];
    GroupSnoc([t1], t2);
    assert [t1] == [] + [t1];
    GroupSnoc([], t1);
  }

  /** A result holding one word gives one run of that word. */
  lemma SingleWordResult(r: RecognitionResult, w: WordInfo)
    requires ReadWords(r) == Some([w])
    ensures ResultRuns(r) == [Run(SpeakerOf(w), [WordOf(w)])]
  {
    var t := Token(SpeakerOf(w), WordOf(w));
    assert Tokens([w]) == [] + [t];
    GroupSnoc([], t);
  }

  lemma ResultsRunsPair(r1: RecognitionResult, r2: RecognitionResult)
    ensures ResultsRuns([r1, r2]) == ResultRuns(r1) + ResultRuns(r2)
  {
    var p := seq(2, i requires 0 <= i < 2 => ResultRuns([r1, r2][i]));
    assert p == [ResultRuns(r1)] + [ResultRuns(r2)];
    FlattenAppend([ResultRuns(r1)], [ResultRuns(r2)]);
    assert Flatten([ResultRuns(r1)]) == ResultRuns(r1) by {
      assert [ResultRuns(r1)][..0] == [];
    }
    assert Flatten([ResultRuns(r2)]) == ResultRuns(r2) by {
      assert [ResultRuns(r2)][..0] == [];
    }
  }

  /** An empty `words` list, a missing `words` key or an empty list of alternatives gives no segment. */
  lemma NothingToRead(res: RecognitionResult)
    requires ReadWords(res) == Some([]) || ReadWords(res) == None
    ensures ResultRuns(res) == []
  {
    if ReadWords(res) == Some([]) {
      assert Tokens([]) == [];
    }
  }

  /**
   * Within one result the segments are the speaker runs of its words, in
   * order: their texts joined with spaces give the words joined with spaces,
   * every segment has a word, and neighbouring segments have different speakers.
   */
  lemma ResultSegmentsFaithful(res: RecognitionResult, words: seq<WordInfo>)
    requires ReadWords(res) == Some(words)
    ensures JoinSpace(Texts(Segments(ResultRuns(res)))) == JoinSpace(Words(Tokens(words)))
    ensures WellFormed(ResultRuns(res))
    ensures |ResultRuns(res)| <= |words|
  {
    JoinedSegmentsAreJoinedWords(Tokens(words));
    GroupWellFormed(Tokens(words));
  }

  lemma {:induction false} ConcatAppend(a: seq<string>, b: seq<string>)
    ensures Concat(a + b) == Concat(a) + Concat(b)
  {
    if b != [] {
      var init := b[..|b| - 1];
      assert (a + b)[..|a + b| - 1] == a + init;
      ConcatAppend(a, init);
    } else {
      assert a + b == a;
    }
  }

  lemma AppendAssoc(x: string, y: string, z: string)
    ensures (x + y) + z == x + (y + z)
  {
  }

  lemma BlocksSnoc(segs: seq<Segment>, i: nat)
    requires i < |segs|
    ensures Blocks(segs[..i + 1]) == Blocks(segs[..i]) + Block(segs[i])
  {
    var p := seq(i + 1, k requires 0 <= k < i + 1 => Block(segs[..i + 1][k]));
    var q := seq(i, k requires 0 <= k < i => Block(segs[..i][k]));
    assert p[..i] == q;
    assert Concat(p) == Concat(p[..i]) + p[i];
  }

  lemma BlocksAppend(a: seq<Segment>, b: seq<Segment>)
    ensures Blocks(a + b) == Blocks(a) + Blocks(b)
  {
    assert seq(|a + b|, i requires 0 <= i < |a + b| => Block((a + b)[i]))
      == seq(|a|, i requires 0 <= i < |a| => Block(a[i])) + seq(|b|, i requires 0 <= i < |b| => Block(b[i]));
    ConcatAppend(seq(|a|, i requires 0 <= i < |a| => Block(a[i])), seq(|b|, i requires 0 <= i < |b| => Block(b[i])));
  }

  /** The sentinel is returned exactly when there are no segments. */
  lemma RenderNoResultsIff(segs: seq<Segment>)
    ensures Render(segs) == "No transcription results found." <==> segs == []
  {
    if segs != [] {
      assert |Render(segs)| >= 80;
    }
  }

  /** A formatted transcription is never empty, so storing it always overwrites the record's field. */
  lemma TranscriptNeverEmpty(folder: string, bucket: string, store: seq<Blob>)
    ensures FormattedTranscription(folder, bucket, store) != ""
  {
    var segs := Segments(BlobsRuns(Listed(store, OutputPrefix(folder, bucket))));
    assert |Render(segs)| > 0;
  }

  /**
   * Segment `i` appears as its own block, after the banner and the blocks of
   * the segments before it and before the blocks of those after it: nothing
   * is reordered, merged or dropped.
   */
  lemma BlockAt(segs: seq<Segment>, i: nat)
    requires i < |segs|
    ensures Render(segs) == Banner("TRANSCRIPTION WITH SPEAKER DIARIZATION (Chirp 3 Model)")
      + Blocks(segs[..i]) + Block(segs[i]) + Blocks(segs[i + 1..])
  {
    assert segs == segs[..i + 1] + segs[i + 1..];
    BlocksAppend(segs[..i + 1], segs[i + 1..]);
    BlocksSnoc(segs, i);
    var banner := Banner("TRANSCRIPTION WITH SPEAKER DIARIZATION (Chirp 3 Model)");
    AppendAssoc(banner, Blocks(segs[..i + 1]), Blocks(segs[i + 1..]));
    AppendAssoc(banner, Blocks(segs[..i]), Block(segs[i]));
  }

  // ---------------------------------------------------------------------
  // `transcribe_audio`: validation, naming and the result.

  /** The uploaded object's name. */
  function AudioBlobName(path: string, timestamp: nat): string {
    "audio-files" + "/" + (IntToString(timestamp) + "_" + Basename(path))
  }

  /** The recognizer's output folder inside the bucket. */
  function OutputFolderName(path: string, timestamp: nat): string {
    "transcripts" + "/" + (IntToString(timestamp) + "_" + RSplitHead(Basename(path)))
  }

  function GcsUri(bucket: string, name: string): string {
    "gs://" + bucket + "/" + name
  }

  /** The local transcript: the path up to its last '.', then "_transcription.txt". */
  function LocalTranscriptPath(path: string): string {
    RSplitHead(path) + "_transcription.txt"
  }

  lemma FolderNameHasNoDoubleSlash(path: string, timestamp: nat)
    ensures NoDoubleSlash(OutputFolderName(path, timestamp))
  {
    var head := RSplitHead(Basename(path));
    assert '/' !in head by {
      assert head <= Basename(path);
    }
    var rest := IntToString(timestamp) + "_" + head;
    assert '/' !in rest;
    assert '/' !in "transcripts";
    SlashJoin("transcripts", rest);
  }

  /** The uploaded object's name holds no "//" and ends with the audio file's base name. */
  lemma AudioBlobNameShape(path: string, timestamp: nat)
    ensures NoDoubleSlash(AudioBlobName(path, timestamp))
    ensures EndsWith(AudioBlobName(path, timestamp), Basename(path))
  {
    var base := Basename(path);
    var rest := IntToString(timestamp) + "_" + base;
    assert '/' !in rest;
    assert '/' !in "audio-files";
    SlashJoin("audio-files", rest);
    var name := AudioBlobName(path, timestamp);
    assert name == ("audio-files" + "/" + IntToString(timestamp) + "_") + base;
  }

  /** The listing prefix computed from the folder URI is the folder name the recognizer wrote to. */
  lemma OutputPrefixRoundTrip(bucket: string, path: string, timestamp: nat)
    ensures OutputPrefix(GcsUri(bucket, OutputFolderName(path, timestamp)), bucket) == OutputFolderName(path, timestamp)
  {
    FolderNameHasNoDoubleSlash(path, timestamp);
    StripBucketPrefix(bucket, OutputFolderName(path, timestamp));
  }

  /** A path ending in a suffix loses exactly that suffix before "_transcription.txt" is added. */
  lemma LocalTranscriptBesideAudio(stem: string, ext: string)
    requires |ext| >= 1 && ext[0] == '.' && '.' !in ext[1..]
    ensures LocalTranscriptPath(stem + ext) == stem + "_transcription.txt"
  {
    var p := stem + ext;
    forall j | |stem| < j < |p|
      ensures p[j] != '.'
    {
      assert p[j] == ext[1..][j - |stem| - 1];
    }
    assert p[|stem|] == '.';
    assert RFind(p, '.') == |stem|;
    assert p[..|stem|] == stem;
  }

  /** The local transcript never overwrites the audio it was made from. */
  lemma LocalTranscriptIsNewFile(path: string)
    ensures LocalTranscriptPath(path) != path
  {
    var head := RSplitHead(path);
    var local := LocalTranscriptPath(path);
    RSplitHeadCut(path);
    if head != path {
      assert local[|head|] == '_' && path[|head|] == '.';
    }
  }

  /** The dictionary `transcribe_audio` returns; `outputFile` only when saving to a file. */
  datatype Transcribed = Transcribed(transcription: string, gcsUri: string, gcsOutputFolder: string, outputFile: Option<string>)

  /**
   * `transcribe_audio` as a function of its inputs and the cloud outcome:
   * the file must exist, then the bucket and then the project must be
   * non-empty; the cloud steps either fail with a message or leave `store`
   * in the bucket.
   */
  function Transcription(path: string, bucket: Option<string>, project: Option<string>, fileExists: bool,
                         timestamp: nat, saveToFile: bool, cloud: Result<seq<Blob>, string>): (r: Result<Transcribed, PyError>)
    ensures r.Success? <==> fileExists && Truthy(bucket) && Truthy(project) && cloud.Success?
    ensures r.Failure? && r.error.kind == FileNotFoundError <==> !fileExists
    ensures fileExists && !Truthy(bucket) ==> r == Failure(PyError(ValueError, "bucket_name is required"))
    ensures fileExists && Truthy(bucket) && !Truthy(project) ==> r == Failure(PyError(ValueError, "project_id is required"))
    ensures fileExists && Truthy(bucket) && Truthy(project) && cloud.Failure? ==> r == Failure(PyError(CloudError, cloud.error))
    ensures r.Success? ==> r.value.gcsUri == GcsUri(bucket.value, AudioBlobName(path, timestamp))
    ensures r.Success? ==> r.value.gcsOutputFolder == GcsUri(bucket.value, OutputFolderName(path, timestamp))
    ensures r.Success? ==> OutputPrefix(r.value.gcsOutputFolder, bucket.value) == OutputFolderName(path, timestamp)
    ensures r.Success? ==> r.value.transcription == FormattedTranscription(r.value.gcsOutputFolder, bucket.value, cloud.value)
    ensures r.Success? ==> r.value.outputFile == if saveToFile then Some(LocalTranscriptPath(path)) else None
  {
    if !fileExists then Failure(PyError(FileNotFoundError, "Audio file not found: " + path))
    else if !Truthy(bucket) then Failure(PyError(ValueError, "bucket_name is required"))
    else if !Truthy(project) then Failure(PyError(ValueError, "project_id is required"))
    else
      match cloud
      case Failure(msg) => Failure(PyError(CloudError, msg))
      case Success(store) =>
        OutputPrefixRoundTrip(bucket.value, path, timestamp);
        var folder := GcsUri(bucket.value, OutputFolderName(path, timestamp));
        Success(Transcribed(
          FormattedTranscription(folder, bucket.value, store),
          GcsUri(bucket.value, AudioBlobName(path, timestamp)),
          folder,
          if saveToFile then Some(LocalTranscriptPath(path)) else None))
  }

  /** `transcribe_audio` run step by step; the formatter is the method above. */
  method TranscribeAudio(path: string, bucket: Option<string>, project: Option<string>, fileExists: bool,
                         timestamp: nat, saveToFile: bool, cloud: Result<seq<Blob>, string>) returns (r: Result<Transcribed, PyError>)
    ensures r == Transcription(path, bucket, project, fileExists, timestamp, saveToFile, cloud)
    ensures r.Success? ==> r.value.transcription != ""
  {
    if !fileExists {
      return Failure(PyError(FileNotFoundError, "Audio file not found: " + path));
    }
    if !Truthy(bucket) {
      return Failure(PyError(ValueError, "bucket_name is required"));
    }
    if !Truthy(project) {
      return Failure(PyError(ValueError, "project_id is required"));
    }
    if cloud.Failure? {
      return Failure(PyError(CloudError, cloud.error));
    }
    var audioBlobName := AudioBlobName(path, timestamp);
    var outputFolderName := OutputFolderName(path, timestamp);
    var audioGcsUri := GcsUri(bucket.value, audioBlobName);
    var gcsOutputFolder := GcsUri(bucket.value, outputFolderName);
    var formatted := DownloadAndFormatTranscription(gcsOutputFolder, bucket.value, cloud.value);
    var outputFile: Option<string> := None;
    if saveToFile {
      outputFile := Some(LocalTranscriptPath(path));
    }
    r := Success(Transcribed(formatted, audioGcsUri, gcsOutputFolder, outputFile));
    ghost var segs := Segments(BlobsRuns(Listed(cloud.value, OutputPrefix(gcsOutputFolder, bucket.value))));
    assert |Render(segs)| > 0;
  }
}
