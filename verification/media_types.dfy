/**
 * The media classifier: a file name is a video, an audio file or of unknown
 * type according to the lower-cased suffix of its final path component and two
 * fixed, disjoint extension allow-lists.
 */
module MediaTypes {
  import opened PyStrings

  datatype FileType = Video | Audio | Unknown

  const VideoExtensions: seq<string> :=
    [".mp4", ".avi", ".mov", ".mkv", ".flv", ".wmv", ".webm", ".m4v", ".mpg", ".mpeg", ".3gp", ".ogv"]

  const AudioExtensions: seq<string> :=
    [".mp3", ".wav", ".flac", ".m4a", ".aac", ".ogg", ".wma", ".opus", ".amr"]

  /** No extension is on both lists. */
  lemma ExtensionListsDisjoint()
    ensures |VideoExtensions| == 12 && |AudioExtensions| == 9
    ensures forall e :: e in VideoExtensions ==> e !in AudioExtensions
  {
  }

  /** `get_file_type`: video first, then audio, otherwise unknown. */
  function GetFileType(filename: string): (t: FileType)
    ensures t == Video <==> Lower(Suffix(filename)) in VideoExtensions
    ensures t == Audio <==> Lower(Suffix(filename)) in AudioExtensions
    ensures t == Unknown <==> Lower(Suffix(filename)) !in VideoExtensions + AudioExtensions
  {
    ExtensionListsDisjoint();
    var ext := Lower(Suffix(filename));
    if ext in VideoExtensions then Video
    else if ext in AudioExtensions then Audio
    else Unknown
  }

  /** `is_video_file` of the command-line tool. */
  function IsVideoFile(path: string): (b: bool)
    ensures b <==> GetFileType(path) == Video
  {
    Lower(Suffix(path)) in VideoExtensions
  }

  /** `is_audio_file` of the command-line tool; never true together with `IsVideoFile`. */
  function IsAudioFile(path: string): (b: bool)
    ensures b <==> GetFileType(path) == Audio
    ensures b ==> !IsVideoFile(path)
  {
    ExtensionListsDisjoint();
    Lower(Suffix(path)) in AudioExtensions
  }

  /** Classification ignores the case of the whole name, so "A.MP4" and "a.mp4" agree. */
  lemma ClassificationIgnoresCase(filename: string)
    ensures GetFileType(Lower(filename)) == GetFileType(filename)
  {
    SuffixLower(filename);
    LowerIdempotent(Suffix(filename));
  }

  /** Every listed extension is a dot followed by at least one character, none a dot or a slash. */
  lemma ListedExtensionShape(e: string)
    requires e in VideoExtensions + AudioExtensions
    ensures |e| >= 3 && e[0] == '.'
    ensures forall i :: 1 <= i < |e| ==> e[i] != '.' && e[i] != '/'
  {
  }

  /** The suffix of a final component `stem + ext` is `ext` when `ext` is a dot and at least one non-dot. */
  lemma SuffixOfName(path: string, stem: string, ext: string)
    requires PathName(path) == stem + ext && stem != ""
    requires |ext| >= 2 && ext[0] == '.' && '.' !in ext[1..]
    ensures Suffix(path) == ext
  {
    var name := stem + ext;
    forall j | |stem| < j < |name|
      ensures name[j] != '.'
    {
      assert name[j] == ext[1..][j - |stem| - 1];
    }
    assert name[|stem|] == '.';
    assert RFind(name, '.') == |stem|;
    assert name[|stem|..] == ext;
  }

  /**
   * A final path component `stem + ext` whose `ext` lower-cases to a listed
   * extension is classified by `ext` alone, whatever `stem` holds (even dots).
   */
  lemma ClassifiedByLastExtension(path: string, stem: string, ext: string)
    requires PathName(path) == stem + ext && stem != ""
    requires Lower(ext) in VideoExtensions + AudioExtensions
    ensures Suffix(path) == ext
    ensures GetFileType(path) == if Lower(ext) in VideoExtensions then Video else Audio
  {
    var e := Lower(ext);
    ListedExtensionShape(e);
    assert ext[0] == '.' by { assert LowerChar(ext[0]) == e[0]; }
    forall j | 1 <= j < |ext|
      ensures ext[j] != '.'
    {
      assert LowerChar(ext[j]) == e[j];
    }
    SuffixOfName(path, stem, ext);
  }

  /** A bare name has itself as its final path component, and so has a name below a directory. */
  lemma NameOfPath(dir: string, name: string)
    requires '/' !in name && name != "" && name != "."
    ensures PathName(name) == name
    ensures PathName(dir + "/" + name) == name
  {
    var p := dir + "/" + name;
    assert p[|dir|] == '/';
    assert forall j :: |dir| < j < |p| ==> p[j] == name[j - |dir| - 1];
    assert RFind(p, '/') == |dir|;
    assert p[|dir| + 1..] == name;
  }

  /**
   * A final path component `stem + ext` whose `ext` is a dot and non-dots
   * that lower-cases to no listed extension is unknown, whatever `stem` holds.
   */
  lemma UnlistedLastExtension(path: string, stem: string, ext: string)
    requires PathName(path) == stem + ext && stem != ""
    requires |ext| >= 2 && ext[0] == '.' && '.' !in ext[1..]
    requires Lower(ext) !in VideoExtensions + AudioExtensions
    ensures GetFileType(path) == Unknown
  {
    SuffixOfName(path, stem, ext);
  }

  /** A bare name `stem + ext` with an unlisted last extension `ext` is unknown. */
  lemma BareNameUnlisted(stem: string, ext: string)
    requires '/' !in stem && '/' !in ext && stem != ""
    requires |ext| >= 2 && ext[0] == '.' && '.' !in ext[1..]
    requires Lower(ext) !in VideoExtensions + AudioExtensions
    ensures GetFileType(stem + ext) == Unknown
  {
    var p := stem + ext;
    assert '/' !in p;
    NameOfPath("", p);
    UnlistedLastExtension(p, stem, ext);
  }

  /** A bare name `stem + ext` with a listed last extension `ext` is classified by it. */
  lemma BareNameListed(stem: string, ext: string)
    requires '/' !in stem && '/' !in ext && stem != ""
    requires Lower(ext) in VideoExtensions + AudioExtensions
    ensures GetFileType(stem + ext) == if Lower(ext) in VideoExtensions then Video else Audio
  {
    var p := stem + ext;
    assert '/' !in p;
    NameOfPath("", p);
    ClassifiedByLastExtension(p, stem, ext);
  }

  lemma TxtAndMp3()
    ensures '/' !in ".mp4" && '/' !in ".txt" && '/' !in ".mp3"
    ensures '.' !in ".txt"[1..] && Lower(".txt") == ".txt" && ".txt" !in VideoExtensions + AudioExtensions
    ensures Lower(".mp3") == ".mp3" && ".mp3" in AudioExtensions && ".mp3" !in VideoExtensions
  {
  }

  /** Only the last extension of the final component counts: "x.mp4.txt" is unknown. */
  lemma InnerExtensionIgnored(stem: string)
    requires '/' !in stem
    ensures GetFileType(stem + ".mp4" + ".txt") == Unknown
  {
    TxtAndMp3();
    BareNameUnlisted(stem + ".mp4", ".txt");
  }

  /** Only the last extension of the final component counts: "x.txt.mp3" is audio. */
  lemma LastExtensionCounts(stem: string)
    requires '/' !in stem
    ensures GetFileType(stem + ".txt" + ".mp3") == Audio
  {
    TxtAndMp3();
    BareNameListed(stem + ".txt", ".mp3");
  }

  /** An upper-case extension counts like a lower-case one: "A.MP4" is a video. */
  lemma UpperCaseExtension(stem: string)
    requires '/' !in stem && stem != ""
    ensures GetFileType(stem + ".MP4") == Video
  {
    NameOfPath("", stem + ".MP4");
    LowerDotMP4();
    ClassifiedByLastExtension(stem + ".MP4", stem, ".MP4");
  }

  lemma LowerDotMP4()
    ensures Lower(".MP4") == ".mp4"
  {
    var s := ".MP4";
    assert Lower(s)[1] == LowerChar('M') == 'm';
    assert Lower(s)[2] == LowerChar('P') == 'p';
  }

  /** A path with no suffix is unknown. */
  lemma EmptySuffixUnknown(p: string)
    requires Suffix(p) == ""
    ensures GetFileType(p) == Unknown
  {
    assert Lower("") == "";
    assert "" !in VideoExtensions + AudioExtensions by {
      forall e | e in VideoExtensions + AudioExtensions ensures e != "" {
        ListedExtensionShape(e);
      }
    }
  }

  /** A video or audio file has a suffix. */
  lemma KnownTypeHasSuffix(p: string)
    requires GetFileType(p) != Unknown
    ensures Suffix(p) != ""
  {
    ListedExtensionShape(Lower(Suffix(p)));
  }

  /** The type depends on the suffix alone. */
  lemma SameSuffixSameType(p: string, q: string)
    requires Suffix(p) == Suffix(q)
    ensures GetFileType(p) == GetFileType(q)
  {
  }

  /**
   * A dot-file such as ".mp4" (one leading '.' and no other) has no suffix,
   * so it is unknown, in any directory.
   */
  lemma DotFileIsUnknown(dir: string, name: string)
    requires |name| >= 2 && name[0] == '.' && '.' !in name[1..] && '/' !in name
    ensures GetFileType(dir + "/" + name) == Unknown
  {
    var p := dir + "/" + name;
    NameOfPath(dir, name);
    LeadingDotOnly(name);
    assert Suffix(p) == "";
    EmptySuffixUnknown(p);
  }

  /** A dot-file's only '.' is its first character. */
  lemma LeadingDotOnly(name: string)
    requires name != [] && name[0] == '.' && '.' !in name[1..]
    ensures RFind(name, '.') == 0
  {
    assert forall k :: 1 <= k < |name| ==> name[k] == name[1..][k - 1];
  }
}
