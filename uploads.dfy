/** The upload filter of the dashboard: a file name is accepted when the text
    after its last dot, lower-cased, is one of five audio extensions. */
module Uploads {
  import opened Numeric

  /** `ALLOWED_EXTENSIONS`. */
  const AllowedExtensions: set<string> := {"mp3", "mp4", "wav", "flac", "m4a"}

  function LowerChar(c: char): char {
    if 'A' <= c <= 'Z' then (c as int - 'A' as int + 'a' as int) as char else c
  }

  /** `str.lower()` on the letters that can occur in an accepted extension. */
  function Lower(s: string): (r: string)
    ensures |r| == |s|
    ensures forall i :: 0 <= i < |s| ==> r[i] == LowerChar(s[i])
  {
    seq(|s|, i requires 0 <= i < |s| => LowerChar(s[i]))
  }

  /** Position `i` holds the last dot of `filename`. */
  predicate IsLastDot(filename: string, i: int) {
    0 <= i < |filename| && filename[i] == '.' && '.' !in filename[i + 1..]
  }

  /** A string has at most one last dot. */
  lemma LastDotUnique(filename: string, i: int, j: int)
    requires IsLastDot(filename, i) && IsLastDot(filename, j)
    ensures i == j
  {
  }

  /** The index of the last dot, if there is one. */
  function LastDot(s: string): (r: Option<nat>)
    ensures r.None? <==> '.' !in s
    ensures r.Some? ==> IsLastDot(s, r.value)
    decreases |s|
  {
    if s == [] then None
    else if s[|s| - 1] == '.' then Some(|s| - 1)
    else
      var init := s[..|s| - 1];
      var r := LastDot(init);
      assert s == init + [s[|s| - 1]];
      if r.Some? then
        assert s[r.value + 1..] == init[r.value + 1..] + [s[|s| - 1]];
        r
      else r
  }

  /** `filename.rsplit('.', 1)[1]`: the text after the last dot, for a name that has one. */
  function Extension(filename: string): (ext: string)
    requires '.' in filename
    ensures '.' !in ext
    ensures exists i :: IsLastDot(filename, i) && ext == filename[i + 1..]
  {
    var i := LastDot(filename).value;
    filename[i + 1..]
  }

  /** An extension passes when its lower-case form is in the set. */
  predicate Recognised(ext: string)
    ensures Recognised(ext) ==> 3 <= |ext| <= 4 && '.' !in ext
  {
    Lower(ext) in AllowedExtensions
  }

  /** `allowed_file`. */
  function AllowedFile(filename: string): (b: bool)
    ensures b <==> exists i :: IsLastDot(filename, i) && Recognised(filename[i + 1..])
  {
    if '.' in filename then
      var ext := Extension(filename);
      var i :| IsLastDot(filename, i) && ext == filename[i + 1..];
      ExtensionDecides(filename, i);
      Recognised(ext)
    else false
  }

  /** Once the last dot is known, the existential of `AllowedFile` reduces to its extension. */
  lemma ExtensionDecides(filename: string, i: int)
    requires IsLastDot(filename, i)
    ensures (exists j :: IsLastDot(filename, j) && Recognised(filename[j + 1..])) <==> Recognised(filename[i + 1..])
  {
    forall j | IsLastDot(filename, j) ensures j == i {
      LastDotUnique(filename, i, j);
    }
  }

  /** A name without a dot is never accepted. */
  lemma NoDotRejected(filename: string)
    requires '.' !in filename
    ensures !AllowedFile(filename)
  {
  }

  /** The verdict depends only on the text after the last dot: any stem may precede it. */
  lemma {:induction false} OnlyLastExtensionCounts(stem: string, ext: string)
    requires '.' !in ext
    ensures AllowedFile(stem + "." + ext) <==> Recognised(ext)
  {
    var name := stem + "." + ext;
    assert name[|stem|] == '.';
    assert name[|stem| + 1..] == ext;
    assert IsLastDot(name, |stem|);
    forall j | IsLastDot(name, j) ensures j == |stem| {
      LastDotUnique(name, j, |stem|);
    }
  }

  /** Upper-case letters are lowered before the set is consulted; `exe` and
      the empty extension are not in it. */
  lemma ExampleExtensions()
    ensures Recognised("MP3") && Recognised("flac") && Recognised("wav")
    ensures !Recognised("exe") && !Recognised("")
  {
    assert Lower("MP3") == "mp3";
    assert Lower("flac") == "flac";
    assert Lower("wav") == "wav";
    assert Lower("exe") == "exe";
    assert Lower("") == "";
  }

  /** Case is ignored. */
  lemma UppercaseAccepted()
    ensures AllowedFile("song.MP3")
  {
    assert Recognised("MP3") by { ExampleExtensions(); }
    OnlyLastExtensionCounts("song", "MP3");
    assert "song" + "." + "MP3" == "song.MP3";
  }

  /** Inner dots do not matter. */
  lemma InnerDotIgnored()
    ensures AllowedFile("a.b.flac")
  {
    assert Recognised("flac") by { ExampleExtensions(); }
    OnlyLastExtensionCounts("a.b", "flac");
    assert "a.b" + "." + "flac" == "a.b.flac";
  }

  /** A name that is only a dot and an extension is accepted. */
  lemma BareExtensionAccepted()
    ensures AllowedFile(".wav")
  {
    assert Recognised("wav") by { ExampleExtensions(); }
    OnlyLastExtensionCounts("", "wav");
    assert "" + "." + "wav" == ".wav";
  }

  /** Whatever comes before: only the last extension counts (`a.wav.exe`),
      and an empty one (`file.wav.`) is not recognised. */
  lemma RejectedExamples(stem: string)
    ensures !AllowedFile(stem + ".wav.exe") && !AllowedFile(stem + ".wav.")
  {
    ExampleExtensions();
    OnlyLastExtensionCounts(stem + ".wav", "exe");
    OnlyLastExtensionCounts(stem + ".wav", "");
    assert stem + ".wav" + "." + "exe" == stem + ".wav.exe";
    assert stem + ".wav" + "." + "" == stem + ".wav.";
  }
}
