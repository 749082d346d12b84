/**
 * Run-length grouping of diarized words: consecutive words spoken by the same
 * speaker form one run, and every change of speaker opens a new run. This is
 * the specification the transcript formatter is proved against.
 */
module SpeakerRuns {
  import opened PyStrings

  /**
   * A speaker as the recognizer reports it: a `speakerLabel` string or a
   * numeric `speakerTag`. A label "1" and a tag 1 are different speakers,
   * as they are different values in the recognizer's JSON.
   */
  datatype Speaker = Label(name: string) | Tag(number: int)

  /** How a speaker is printed after "Speaker ". */
  function SpeakerText(s: Speaker): string {
    match s
    case Label(n) => n
    case Tag(k) => IntToString(k)
  }

  /** One recognized word with the speaker it is attributed to. */
  datatype Token = Token(speaker: Speaker, word: string)

  /** A maximal stretch of words by one speaker. */
  datatype Run = Run(speaker: Speaker, words: seq<string>)

  /** A transcript segment: a speaker and the space-joined words of one run. */
  datatype Segment = Segment(speaker: Speaker, text: string)

  /** Every run has a word, and neighbouring runs have different speakers. */
  predicate WellFormed(runs: seq<Run>) {
    (forall i :: 0 <= i < |runs| ==> runs[i].words != []) &&
    (forall i :: 0 < i < |runs| ==> SpeakerChangesAt(runs, i))
  }

  /** The run at `i` has another speaker than the run before it. */
  predicate SpeakerChangesAt(runs: seq<Run>, i: nat)
    requires 0 < i < |runs|
  {
    runs[i - 1].speaker != runs[i].speaker
  }

  /** One step of the grouping: the next token joins the last run or opens a new one. */
  function Step(g: seq<Run>, t: Token): (r: seq<Run>)
    ensures |r| <= |g| + 1 && r != []
    ensures r[|r| - 1].speaker == t.speaker
    ensures g != [] ==> r[0].speaker == g[0].speaker
    ensures g == [] ==> r == [Run(t.speaker, [t.word])]
  {
    if g != [] && g[|g| - 1].speaker == t.speaker then
      g[..|g| - 1] + [Run(t.speaker, g[|g| - 1].words + [t.word])]
    else
      g + [Run(t.speaker, [t.word])]
  }

  /** A step keeps the runs well formed. */
  lemma StepWellFormed(g: seq<Run>, t: Token)
    requires WellFormed(g)
    ensures WellFormed(Step(g, t))
  {
    var r := Step(g, t);
    forall i | 0 < i < |r| ensures SpeakerChangesAt(r, i) {
      if i < |g| { assert SpeakerChangesAt(g, i); }
    }
  }

  /** The grouping, read left to right as the formatter reads the words. */
  function Group(ts: seq<Token>): (runs: seq<Run>)
    ensures |runs| <= |ts|
    ensures runs == [] <==> ts == []
    ensures runs != [] ==> runs[0].speaker == ts[0].speaker
    ensures runs != [] ==> runs[|runs| - 1].speaker == ts[|ts| - 1].speaker
  {
    if ts == [] then [] else Step(Group(ts[..|ts| - 1]), ts[|ts| - 1])
  }

  /** Every run of the grouping has a word, and neighbouring runs have different speakers. */
  lemma {:induction false} GroupWellFormed(ts: seq<Token>)
    ensures WellFormed(Group(ts))
  {
    if ts != [] {
      GroupWellFormed(ts[..|ts| - 1]);
      StepWellFormed(Group(ts[..|ts| - 1]), ts[|ts| - 1]);
    }
  }

  lemma GroupSnoc(ts: seq<Token>, t: Token)
    ensures Group(ts + [t]) == Step(Group(ts), t)
  {
    assert (ts + [t])[..|ts|] == ts;
  }

  /** The tokens of one run. */
  function Spread(r: Run): (ts: seq<Token>)
    ensures |ts| == |r.words|
    ensures forall i :: 0 <= i < |ts| ==> ts[i] == Token(r.speaker, r.words[i])
  {
    seq(|r.words|, i requires 0 <= i < |r.words| => Token(r.speaker, r.words[i]))
  }

  /** The tokens of a sequence of runs, in order. */
  function Expand(runs: seq<Run>): seq<Token> {
    if runs == [] then [] else Expand(runs[..|runs| - 1]) + Spread(runs[|runs| - 1])
  }

  /** The words of a token sequence. */
  function Words(ts: seq<Token>): (ws: seq<string>)
    ensures |ws| == |ts| && forall i :: 0 <= i < |ts| ==> ws[i] == ts[i].word
  {
    seq(|ts|, i requires 0 <= i < |ts| => ts[i].word)
  }

  /** The words of a sequence of runs, concatenated in order. */
  function FlatWords(runs: seq<Run>): seq<string> {
    if runs == [] then [] else FlatWords(runs[..|runs| - 1]) + runs[|runs| - 1].words
  }

  function SegmentOf(r: Run): Segment {
    Segment(r.speaker, JoinSpace(r.words))
  }

  function Segments(runs: seq<Run>): (segs: seq<Segment>)
    ensures |segs| == |runs| && forall i :: 0 <= i < |runs| ==> segs[i] == SegmentOf(runs[i])
  {
    seq(|runs|, i requires 0 <= i < |runs| => SegmentOf(runs[i]))
  }

  function Texts(segs: seq<Segment>): (texts: seq<string>)
    ensures |texts| == |segs| && forall i :: 0 <= i < |segs| ==> texts[i] == segs[i].text
  {
    seq(|segs|, i requires 0 <= i < |segs| => segs[i].text)
  }

  /** Run lists concatenated in order. */
  function Flatten(parts: seq<seq<Run>>): seq<Run> {
    if parts == [] then [] else Flatten(parts[..|parts| - 1]) + parts[|parts| - 1]
  }

  lemma {:induction false} FlattenAppend(a: seq<seq<Run>>, b: seq<seq<Run>>)
    ensures Flatten(a + b) == Flatten(a) + Flatten(b)
  {
    if b != [] {
      var init := b[..|b| - 1];
      assert (a + b)[..|a + b| - 1] == a + init;
      FlattenAppend(a, init);
    } else {
      assert a + b == a;
    }
  }

  /** A token by the current speaker extends the current run. */
  lemma StepSameSpeaker(done: seq<Run>, s: Speaker, text: seq<string>, t: Token)
    requires t.speaker == s
    ensures Step(done + [Run(s, text)], t) == done + [Run(s, text + [t.word])]
  {
    assert (done + [Run(s, text)])[..|done|] == done;
  }

  /** A token by another speaker closes the current run and opens a new one. */
  lemma StepNewSpeaker(done: seq<Run>, s: Speaker, text: seq<string>, t: Token)
    requires t.speaker != s
    ensures Step(done + [Run(s, text)], t) == (done + [Run(s, text)]) + [Run(t.speaker, [t.word])]
  {
  }

  /** Reading token `i` by the speaker of the open run extends that run. */
  lemma GroupExtendSame(ts: seq<Token>, i: nat, done: seq<Run>, s: Speaker, text: seq<string>)
    requires 0 < i < |ts| && Group(ts[..i]) == done + [Run(s, text)] && ts[i].speaker == s
    ensures Group(ts[..i + 1]) == done + [Run(s, text + [ts[i].word])]
  {
    assert ts[..i + 1] == ts[..i] + [ts[i]];
    GroupSnoc(ts[..i], ts[i]);
    StepSameSpeaker(done, s, text, ts[i]);
  }

  /** Reading token `i` by another speaker closes the open run and opens a new one. */
  lemma GroupExtendNew(ts: seq<Token>, i: nat, done: seq<Run>, s: Speaker, text: seq<string>)
    requires 0 < i < |ts| && Group(ts[..i]) == done + [Run(s, text)] && ts[i].speaker != s
    ensures Group(ts[..i + 1]) == (done + [Run(s, text)]) + [Run(ts[i].speaker, [ts[i].word])]
  {
    assert ts[..i + 1] == ts[..i] + [ts[i]];
    GroupSnoc(ts[..i], ts[i]);
    StepNewSpeaker(done, s, text, ts[i]);
  }

  /** The first token opens the first run. */
  lemma GroupFirst(ts: seq<Token>)
    requires ts != []
    ensures Group(ts[..1]) == [] + [Run(ts[0].speaker, [ts[0].word])]
  {
    assert ts[..1] == [] + [ts[0]];
    GroupSnoc([], ts[0]);
  }

  /** Closing a run appends its segment. */
  lemma SegmentsFlush(segs: seq<Segment>, done: seq<Run>, s: Speaker, text: seq<string>)
    ensures (segs + Segments(done)) + [Segment(s, JoinSpace(text))] == segs + Segments(done + [Run(s, text)])
  {
    SegmentsSnoc(done, Run(s, text));
  }

  lemma SegmentsSnoc(runs: seq<Run>, r: Run)
    ensures Segments(runs + [r]) == Segments(runs) + [SegmentOf(r)]
  {
  }

  lemma ExpandSnoc(runs: seq<Run>, r: Run)
    ensures Expand(runs + [r]) == Expand(runs) + Spread(r)
  {
    assert (runs + [r])[..|runs|] == runs;
  }

  lemma FlatWordsSnoc(runs: seq<Run>, r: Run)
    ensures FlatWords(runs + [r]) == FlatWords(runs) + r.words
  {
    assert (runs + [r])[..|runs|] == runs;
  }

  /** Adding a word to the last run adds its token to the end of the expansion. */
  lemma ExpandExtendLast(init: seq<Run>, last: Run, w: string)
    ensures Expand(init + [Run(last.speaker, last.words + [w])]) == Expand(init + [last]) + [Token(last.speaker, w)]
  {
    ExpandSnoc(init, last);
    ExpandSnoc(init, Run(last.speaker, last.words + [w]));
    assert Spread(Run(last.speaker, last.words + [w])) == Spread(last) + [Token(last.speaker, w)];
  }

  /** One step adds exactly its token to the end of the expansion. */
  lemma StepExpand(g: seq<Run>, t: Token)
    ensures Expand(Step(g, t)) == Expand(g) + [t]
  {
    if g != [] && g[|g| - 1].speaker == t.speaker {
      var k := |g| - 1;
      assert g == g[..k] + [g[k]];
      ExpandExtendLast(g[..k], g[k], t.word);
    } else {
      ExpandSnoc(g, Run(t.speaker, [t.word]));
      assert Spread(Run(t.speaker, [t.word])) == [t];
    }
  }

  /** Grouping loses, adds and reorders nothing: expanding the runs gives back the tokens. */
  lemma {:induction false} ExpandGroup(ts: seq<Token>)
    ensures Expand(Group(ts)) == ts
  {
    if ts != [] {
      var init, t := ts[..|ts| - 1], ts[|ts| - 1];
      assert ts == init + [t];
      ExpandGroup(init);
      StepExpand(Group(init), t);
    }
  }

  lemma SpreadSnoc(s: Speaker, ws: seq<string>, w: string)
    ensures Spread(Run(s, ws + [w])) == Spread(Run(s, ws)) + [Token(s, w)]
  {
  }

  /** A run whose speaker differs from the last one so far is appended whole. */
  lemma {:induction false} GroupSpread(ts: seq<Token>, r: Run)
    requires r.words != []
    requires Group(ts) != [] ==> Group(ts)[|Group(ts)| - 1].speaker != r.speaker
    ensures Group(ts + Spread(r)) == Group(ts) + [r]
    decreases |r.words|
  {
    var s, ws := r.speaker, r.words;
    var n := |ws|;
    var w := ws[n - 1];
    var tok := Token(s, w);
    var prefix := ws[..n - 1];
    var g := Group(ts);
    var before := ts + Spread(Run(s, prefix));
    assert ws == prefix + [w];
    assert ts + Spread(r) == before + [tok] by {
      SpreadSnoc(s, prefix, w);
    }
    GroupSnoc(before, tok);
    if n > 1 {
      assert Group(before) == g + [Run(s, prefix)] by {
        GroupSpread(ts, Run(s, prefix));
      }
      StepSameSpeaker(g, s, prefix, tok);
    } else {
      assert before == ts;
      assert r == Run(s, [w]);
      assert Step(g, tok) == g + [r];
    }
  }

  lemma WellFormedPrefix(runs: seq<Run>)
    requires WellFormed(runs) && runs != []
    ensures WellFormed(runs[..|runs| - 1])
    ensures |runs| > 1 ==> runs[|runs| - 2].speaker != runs[|runs| - 1].speaker
  {
    var init := runs[..|runs| - 1];
    forall i | 0 < i < |init| ensures SpeakerChangesAt(init, i) {
      assert SpeakerChangesAt(runs, i);
    }
    if |runs| > 1 {
      assert SpeakerChangesAt(runs, |runs| - 1);
    }
  }

  lemma GroupExpandSnoc(init: seq<Run>, r: Run)
    requires Group(Expand(init)) == init
    requires r.words != [] && (init != [] ==> init[|init| - 1].speaker != r.speaker)
    ensures Group(Expand(init + [r])) == init + [r]
  {
    ExpandSnoc(init, r);
    GroupSpread(Expand(init), r);
  }

  /** Grouping the tokens of well-formed runs gives back those runs. */
  lemma {:induction false} GroupExpand(runs: seq<Run>)
    requires WellFormed(runs)
    ensures Group(Expand(runs)) == runs
  {
    if runs != [] {
      var init, r := runs[..|runs| - 1], runs[|runs| - 1];
      assert runs == init + [r];
      WellFormedPrefix(runs);
      GroupExpand(init);
      GroupExpandSnoc(init, r);
    }
  }

  /** The grouping is the only well-formed run sequence that expands to the tokens. */
  lemma GroupUnique(ts: seq<Token>, runs: seq<Run>)
    requires WellFormed(runs) && Expand(runs) == ts
    ensures runs == Group(ts)
  {
    GroupExpand(runs);
  }

  lemma {:induction false} WordsOfExpand(runs: seq<Run>)
    ensures Words(Expand(runs)) == FlatWords(runs)
  {
    if runs != [] {
      var init, r := runs[..|runs| - 1], runs[|runs| - 1];
      WordsOfExpand(init);
      assert Words(Expand(init) + Spread(r)) == Words(Expand(init)) + r.words;
    }
  }

  lemma TextsSnoc(runs: seq<Run>, r: Run)
    ensures Texts(Segments(runs + [r])) == Texts(Segments(runs)) + [JoinSpace(r.words)]
  {
  }

  lemma FlatWordsNonEmpty(runs: seq<Run>)
    requires runs != [] && runs[|runs| - 1].words != []
    ensures FlatWords(runs) != []
  {
  }

  /** Space-joining the run texts equals space-joining all their words, when no run is empty. */
  lemma {:induction false} JoinRunTexts(runs: seq<Run>)
    requires forall i :: 0 <= i < |runs| ==> runs[i].words != []
    ensures JoinSpace(Texts(Segments(runs))) == JoinSpace(FlatWords(runs))
  {
    if |runs| > 1 {
      var init, r := runs[..|runs| - 1], runs[|runs| - 1];
      assert runs == init + [r];
      JoinRunTexts(init);
      TextsSnoc(init, r);
      FlatWordsSnoc(init, r);
      FlatWordsNonEmpty(init);
      var texts := Texts(Segments(init));
      assert texts != [];
      JoinSpaceAppend(texts, [JoinSpace(r.words)]);
      JoinSpaceAppend(FlatWords(init), r.words);
    } else if |runs| == 1 {
      assert FlatWords(runs) == runs[0].words by {
        assert runs[..0] == [];
      }
      assert Texts(Segments(runs)) == [JoinSpace(runs[0].words)];
    }
  }

  /**
   * Joining the segment texts of one word list with spaces gives the list's
   * words joined with spaces: grouping only inserts speaker boundaries.
   */
  lemma JoinedSegmentsAreJoinedWords(ts: seq<Token>)
    ensures JoinSpace(Texts(Segments(Group(ts)))) == JoinSpace(Words(ts))
  {
    ExpandGroup(ts);
    GroupWellFormed(ts);
    WordsOfExpand(Group(ts));
    JoinRunTexts(Group(ts));
  }

  /** A speaker change opens a new run: the number of runs is one more than the number of changes. */
  function Changes(ts: seq<Token>): nat {
    if |ts| <= 1 then 0
    else Changes(ts[..|ts| - 1]) + (if ts[|ts| - 2].speaker != ts[|ts| - 1].speaker then 1 else 0)
  }

  lemma {:induction false} RunCount(ts: seq<Token>)
    requires ts != []
    ensures |Group(ts)| == Changes(ts) + 1
  {
    if |ts| > 1 {
      var init, t := ts[..|ts| - 1], ts[|ts| - 1];
      RunCount(init);
      var g := Group(init);
      assert g[|g| - 1].speaker == ts[|ts| - 2].speaker;
      assert Group(ts) == Step(g, t);
      if ts[|ts| - 2].speaker == t.speaker {
        assert |Step(g, t)| == |g|;
      } else {
        assert |Step(g, t)| == |g| + 1;
      }
    }
  }
}
