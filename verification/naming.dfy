/**
 * How the job names its output (bot.py, inside `task`): the rewrite of the
 * downloaded file's name to the converted `.mp3`, the "No" sentinel that
 * picks the video title over the user's name, and the name the document is
 * sent under.
 */
module Naming {
  import opened Wrappers
  import opened Text

  /**
   * The file the converter leaves behind: a `.webm` or `.m4a` download
   * becomes the same stem with `.mp3`; any other name is kept as it is.
   */
  function Mp3Name(outFile: string): (r: string)
    ensures EndsWith(outFile, ".webm") ==>
      |r| == |outFile| - 1 && EndsWith(r, ".mp3") && r[..|r| - 4] == outFile[..|outFile| - 5]
    ensures !EndsWith(outFile, ".webm") && EndsWith(outFile, ".m4a") ==>
      |r| == |outFile| && EndsWith(r, ".mp3") && r[..|r| - 4] == outFile[..|outFile| - 4]
    ensures !EndsWith(outFile, ".webm") && !EndsWith(outFile, ".m4a") ==> r == outFile
  {
    if EndsWith(outFile, ".webm") then
      var r := outFile[..|outFile| - 5] + ".mp3";
      assert r[|r| - 4..] == ".mp3" && r[..|r| - 4] == outFile[..|outFile| - 5];
      r
    else if EndsWith(outFile, ".m4a") then
      var r := outFile[..|outFile| - 4] + ".mp3";
      assert r[|r| - 4..] == ".mp3" && r[..|r| - 4] == outFile[..|outFile| - 4];
      r
    else outFile
  }

  /** The rewrite on a stem: both download suffixes turn into `.mp3` and the stem is kept. */
  lemma Mp3NameOfStem(stem: string)
    ensures Mp3Name(stem + ".webm") == stem + ".mp3"
    ensures Mp3Name(stem + ".m4a") == stem + ".mp3"
  {
    var w := stem + ".webm";
    assert w[|w| - 5..] == ".webm" && w[..|w| - 5] == stem;
    var m := stem + ".m4a";
    assert m[|m| - 4..] == ".m4a" && m[..|m| - 4] == stem;
    assert !EndsWith(m, ".webm") by {
      assert m[|m| - 1] == 'a';
    }
  }

  /** Rewriting twice is rewriting once: an `.mp3` name ends in neither download suffix. */
  lemma Mp3NameIdempotent(outFile: string)
    ensures Mp3Name(Mp3Name(outFile)) == Mp3Name(outFile)
  {
    var r := Mp3Name(outFile);
    if EndsWith(outFile, ".webm") || EndsWith(outFile, ".m4a") {
      assert r[|r| - 4..] == ".mp3";
      assert r[|r| - 1] == '3';
      if |r| >= 5 {
        assert r[|r| - 5..][4] == '3';
      }
      assert r[|r| - 4..][3] == '3';
    }
  }

  /** `filename.lower() == "no"`: the user asked for the video title. */
  predicate IsNoSentinel(filename: string)
  {
    LowerAscii(filename) == "no"
  }

  /** The sentinel is "no" in any of its four capitalisations, and nothing else. */
  lemma NoSentinelSpellings(filename: string)
    ensures IsNoSentinel(filename) <==> filename in {"no", "No", "nO", "NO"}
  {
    if IsNoSentinel(filename) {
      var l := LowerAscii(filename);
      assert |filename| == 2;
      assert LowerChar(filename[0]) == 'n' && LowerChar(filename[1]) == 'o';
      assert filename[0] in {'n', 'N'} && filename[1] in {'o', 'O'};
      assert filename == [filename[0], filename[1]];
    }
    if filename in {"no", "No", "nO", "NO"} {
      assert LowerAscii(filename) == [LowerChar(filename[0]), LowerChar(filename[1])];
    }
  }

  /** The name the file is delivered under: the title (or "Audio" when it has none) for the sentinel, else the user's name. */
  function DisplayName(filename: string, title: Option<string>): string
  {
    if IsNoSentinel(filename) then title.GetOr("Audio") else filename
  }

  /** The title is used exactly when the user typed the sentinel, and "Audio" stands in for a missing title. */
  lemma DisplayNameChoice(filename: string, title: Option<string>)
    ensures filename in {"no", "No", "nO", "NO"} ==> DisplayName(filename, title) == title.GetOr("Audio")
    ensures filename !in {"no", "No", "nO", "NO"} ==> DisplayName(filename, title) == filename
    ensures DisplayName(filename, None) != filename ==> DisplayName(filename, None) == "Audio"
  {
    NoSentinelSpellings(filename);
  }

  /** `f"{display_name}.mp3"`: the display name followed by the fixed extension. */
  function SentName(display: string): (r: string)
    ensures |r| == |display| + 4 && EndsWith(r, ".mp3") && r[..|display|] == display
  {
    display + ".mp3"
  }
}
