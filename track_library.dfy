/**
  The audio-file list of the window (MainWindow.LoadAudioFiles): the top-level files of a
  directory, kept when their name ends in ".mp3", ".wav" or ".ogg" (ignoring case), sorted
  ascending. The directory scan itself is not modelled: a directory is given as the sequence
  of file paths it holds, or None when it does not exist.
*/
module TrackLibrary {
  import opened Wrappers

  /** Case folding of ordinal-ignore-case comparison, as far as the three extensions need it:
      no character outside ASCII folds onto '.', '3', or the letters of "mp3", "wav", "ogg". */
  function Lower(c: char): (l: char)
    ensures 'A' <= c <= 'Z' ==> l as int == c as int + 32
    ensures !('A' <= c <= 'Z') ==> l == c
  {
    if 'A' <= c <= 'Z' then (c as int + 32) as char else c
  }

  /** s ends with suffix when both are compared ignoring case. */
  predicate EndsWithIgnoreCase(s: string, suffix: string)
  {
    |suffix| <= |s| &&
    forall i :: 0 <= i < |suffix| ==> Lower(s[|s| - |suffix| + i]) == Lower(suffix[i])
  }

  /** The filter of LoadAudioFiles. */
  predicate IsAudioFile(path: string): (b: bool)
    ensures b ==> |path| >= 4 && path[|path| - 4] == '.'
  {
    ExtensionsStartWithDot(path);
    EndsWithIgnoreCase(path, ".mp3") || EndsWithIgnoreCase(path, ".wav") || EndsWithIgnoreCase(path, ".ogg")
  }

  lemma ExtensionsStartWithDot(path: string)
    ensures (EndsWithIgnoreCase(path, ".mp3") || EndsWithIgnoreCase(path, ".wav") ||
             EndsWithIgnoreCase(path, ".ogg")) ==> path[|path| - 4] == '.'
  {
    if |path| >= 4 {
      assert ".mp3"[0] == ".wav"[0] == ".ogg"[0] == '.';
      assert EndsWithIgnoreCase(path, ".mp3") ==> Lower(path[|path| - 4]) == Lower(".mp3"[0]);
      assert EndsWithIgnoreCase(path, ".wav") ==> Lower(path[|path| - 4]) == Lower(".wav"[0]);
      assert EndsWithIgnoreCase(path, ".ogg") ==> Lower(path[|path| - 4]) == Lower(".ogg"[0]);
    }
  }

  /** Ordinal order on paths: character by character, a proper prefix first. Characters are
      compared as Unicode scalar values; .NET's ordinal comparison compares UTF-16 code units,
      which orders the same except a character above U+FFFF against one in U+E000..U+FFFF. */
  predicate NoLater(a: string, b: string)
    decreases |a|
  {
    if a == [] then true
    else if b == [] then false
    else if a[0] != b[0] then a[0] < b[0]
    else NoLater(a[1..], b[1..])
  }

  lemma {:induction false} NoLaterReflexive(a: string)
    ensures NoLater(a, a)
    decreases |a|
  {
    if a != [] { NoLaterReflexive(a[1..]); }
  }

  lemma {:induction false} NoLaterTotal(a: string, b: string)
    ensures NoLater(a, b) || NoLater(b, a)
    decreases |a|
  {
    if a != [] && b != [] && a[0] == b[0] { NoLaterTotal(a[1..], b[1..]); }
  }

  lemma {:induction false} NoLaterAntisymmetric(a: string, b: string)
    requires NoLater(a, b) && NoLater(b, a)
    ensures a == b
    decreases |a|
  {
    if a != [] {
      NoLaterAntisymmetric(a[1..], b[1..]);
      assert a == [a[0]] + a[1..] && b == [b[0]] + b[1..];
    }
  }

  lemma {:induction false} NoLaterTransitive(a: string, b: string, c: string)
    requires NoLater(a, b) && NoLater(b, c)
    ensures NoLater(a, c)
    decreases |a|
  {
    if a != [] && a[0] == b[0] && b[0] == c[0] {
      NoLaterTransitive(a[1..], b[1..], c[1..]);
    }
  }

  predicate Sorted(s: seq<string>)
  {
    forall i, j :: 0 <= i < j < |s| ==> NoLater(s[i], s[j])
  }

  /** A path that comes no later than every path of a sorted list can go in front of it. */
  lemma SortedCons(x: string, s: seq<string>)
    requires Sorted(s)
    requires forall y :: y in s ==> NoLater(x, y)
    ensures Sorted([x] + s)
  {
    var r := [x] + s;
    forall i, j | 0 <= i < j < |r| ensures NoLater(r[i], r[j]) {
      if i == 0 { assert r[j] == s[j - 1] && r[j] in s; } else { assert r[i] == s[i - 1] && r[j] == s[j - 1]; }
    }
  }

  /** The head of a sorted list comes no later than any of its paths. */
  lemma SortedHead(s: seq<string>, y: string)
    requires Sorted(s) && y in s
    ensures NoLater(s[0], y)
  {
    var i :| 0 <= i < |s| && s[i] == y;
    if i == 0 { NoLaterReflexive(y); }
  }

  lemma SortedTail(s: seq<string>)
    requires Sorted(s) && s != []
    ensures Sorted(s[1..])
  {
    var t := s[1..];
    forall i, j | 0 <= i < j < |t| ensures NoLater(t[i], t[j]) {
      assert t[i] == s[i + 1] && t[j] == s[j + 1];
    }
  }

  /** Insertion of one path into a sorted list, after the paths that come no later than it. */
  function Insert(x: string, s: seq<string>): (r: seq<string>)
    requires Sorted(s)
    ensures Sorted(r)
    ensures multiset(r) == multiset(s) + multiset{x}
  {
    if s == [] then [x]
    else if NoLater(x, s[0]) then
      forall y | y in s ensures NoLater(x, y) {
        SortedHead(s, y);
        NoLaterTransitive(x, s[0], y);
      }
      SortedCons(x, s);
      [x] + s
    else
      assert s == [s[0]] + s[1..];
      SortedTail(s);
      var t := Insert(x, s[1..]);
      forall y | y in t ensures NoLater(s[0], y) {
        assert y in multiset(t);
        if y == x {
          NoLaterTotal(x, s[0]);
        } else {
          assert y in multiset(s[1..]);
          assert y in s;
          SortedHead(s, y);
        }
      }
      SortedCons(s[0], t);
      [s[0]] + t
  }

  /** The OrderBy of LoadAudioFiles, as an insertion sort. */
  function SortPaths(s: seq<string>): (r: seq<string>)
    ensures Sorted(r)
    ensures multiset(r) == multiset(s)
  {
    if s == [] then []
    else
      assert s == [s[0]] + s[1..];
      Insert(s[0], SortPaths(s[1..]))
  }

  /** The Where of LoadAudioFiles: each path kept as often as it occurs when it is an audio file. */
  function FilterAudio(s: seq<string>): (r: seq<string>)
    ensures |r| <= |s|
    ensures forall i :: 0 <= i < |r| ==> IsAudioFile(r[i])
  {
    if s == [] then []
    else (if IsAudioFile(s[0]) then [s[0]] else []) + FilterAudio(s[1..])
  }

  /** The filter keeps each audio path as often as it occurs, and no other path. */
  lemma {:induction false} FilterAudioCount(s: seq<string>, x: string)
    ensures multiset(FilterAudio(s))[x] == if IsAudioFile(x) then multiset(s)[x] else 0
    decreases |s|
  {
    if s != [] {
      assert s == [s[0]] + s[1..];
      FilterAudioCount(s[1..], x);
    }
  }

  /** LoadAudioFiles: an existing directory gives its audio files in order, a missing one nothing. */
  function LoadAudioFiles(directory: Option<seq<string>>): (r: seq<string>)
    ensures directory.None? ==> r == []
    ensures Sorted(r)
  {
    match directory
    case None => []
    case Some(files) => SortPaths(FilterAudio(files))
  }

  /** What the list holds: each audio file of the directory, as often as it occurs there, and
      nothing else. */
  lemma LoadAudioFilesContents(directory: Option<seq<string>>)
    ensures var r := LoadAudioFiles(directory);
      && (directory.Some? ==>
        forall x :: multiset(r)[x] == if IsAudioFile(x) then multiset(directory.value)[x] else 0)
      && (forall x :: x in r <==> directory.Some? && x in directory.value && IsAudioFile(x))
  {
    var r := LoadAudioFiles(directory);
    if directory.Some? {
      var files := directory.value;
      forall x ensures multiset(r)[x] == if IsAudioFile(x) then multiset(files)[x] else 0 {
        FilterAudioCount(files, x);
      }
      assert forall x :: x in r <==> multiset(r)[x] > 0;
      assert forall x :: x in files <==> multiset(files)[x] > 0;
    }
  }

  /** Two sorted lists with the same elements are the same list. */
  lemma {:induction false} SortedUnique(a: seq<string>, b: seq<string>)
    requires Sorted(a) && Sorted(b) && multiset(a) == multiset(b)
    ensures a == b
    decreases |a|
  {
    if a != [] {
      SameHead(a, b);
      MultisetTail(a);
      MultisetTail(b);
      SortedTail(a);
      SortedTail(b);
      SortedUnique(a[1..], b[1..]);
      assert a == [a[0]] + a[1..] && b == [b[0]] + b[1..];
    }
  }

  /** Two sorted lists with the same elements start with the same path. */
  lemma SameHead(a: seq<string>, b: seq<string>)
    requires Sorted(a) && Sorted(b) && multiset(a) == multiset(b) && a != []
    ensures |b| == |a| && a[0] == b[0]
  {
    assert |b| == |multiset(b)| == |multiset(a)| == |a|;
    assert a[0] in multiset(b) && b[0] in multiset(a);
    SortedHead(a, b[0]);
    SortedHead(b, a[0]);
    NoLaterAntisymmetric(a[0], b[0]);
  }

  lemma MultisetTail(s: seq<string>)
    requires s != []
    ensures multiset(s[1..]) == multiset(s) - multiset{s[0]}
  {
    assert s == [s[0]] + s[1..];
  }

  /** The list is determined by the directory: any sorted list holding exactly its audio files
      (with the same multiplicities) is the one LoadAudioFiles returns. */
  lemma LoadAudioFilesUnique(files: seq<string>, r: seq<string>)
    requires Sorted(r)
    requires forall x :: multiset(r)[x] == if IsAudioFile(x) then multiset(files)[x] else 0
    ensures r == LoadAudioFiles(Some(files))
  {
    var l := LoadAudioFiles(Some(files));
    LoadAudioFilesContents(Some(files));
    assert multiset(r) == multiset(l);
    SortedUnique(r, l);
  }

  /** A name followed by an extension that matches the suffix ignoring case ends with it. */
  lemma EndsWithAnyCase(name: string, ext: string, suffix: string)
    requires |ext| == |suffix|
    requires forall i :: 0 <= i < |ext| ==> Lower(ext[i]) == Lower(suffix[i])
    ensures EndsWithIgnoreCase(name + ext, suffix)
  {
    var s := name + ext;
    forall i | 0 <= i < |suffix| ensures Lower(s[|s| - |suffix| + i]) == Lower(suffix[i]) {
      assert s[|s| - |suffix| + i] == ext[i];
    }
  }

  /** The extension is recognised in any mix of upper and lower case, after any name. */
  lemma AudioExtensionsAnyCase(name: string)
    ensures IsAudioFile(name + ".mp3") && IsAudioFile(name + ".MP3")
    ensures IsAudioFile(name + ".Wav") && IsAudioFile(name + ".oGG")
  {
    EndsWithAnyCase(name, ".mp3", ".mp3");
    EndsWithAnyCase(name, ".MP3", ".mp3");
    EndsWithAnyCase(name, ".Wav", ".wav");
    EndsWithAnyCase(name, ".oGG", ".ogg");
  }

  lemma ExampleExtensions()
    ensures IsAudioFile("b.wav") && IsAudioFile("a.mp3") && !IsAudioFile("c.txt")
  {
    assert EndsWithIgnoreCase("b.wav", ".wav");
    assert EndsWithIgnoreCase("a.mp3", ".mp3");
    assert Lower("c.txt"[2]) != Lower(".mp3"[1]);
    assert Lower("c.txt"[2]) != Lower(".wav"[1]);
    assert Lower("c.txt"[2]) != Lower(".ogg"[1]);
  }

  lemma ExampleFilter()
    ensures FilterAudio(["b.wav", "a.mp3", "c.txt"]) == ["b.wav", "a.mp3"]
  {
    ExampleExtensions();
    assert ["b.wav", "a.mp3", "c.txt"][1..] == ["a.mp3", "c.txt"];
    assert ["a.mp3", "c.txt"][1..] == ["c.txt"];
    assert FilterAudio(["c.txt"]) == [];
    assert FilterAudio(["a.mp3", "c.txt"]) == ["a.mp3"];
  }

  lemma ExampleSort()
    ensures SortPaths(["b.wav", "a.mp3"]) == ["a.mp3", "b.wav"]
  {
    assert SortPaths(["a.mp3"]) == ["a.mp3"];
    assert !NoLater("b.wav", "a.mp3");
    assert ["b.wav", "a.mp3"][1..] == ["a.mp3"];
  }

  /** A directory with b.wav, a.mp3 and c.txt lists a.mp3, then b.wav. */
  lemma LoadAudioFilesExample()
    ensures LoadAudioFiles(Some(["b.wav", "a.mp3", "c.txt"])) == ["a.mp3", "b.wav"]
  {
    ExampleFilter();
    ExampleSort();
  }
}
