/**
 * `read_requirements` from the packaging script: read a requirements file
 * line by line, keep every stripped line that is neither empty nor a
 * comment, then drop the first `-e .` entry.  A file that cannot be read
 * gives an empty list instead of an exception.
 */
module Setup {
  import opened Exceptions
  import opened FileSystem
  import opened PyStr

  /** Text-mode reading with universal newlines: `\r\n` and a lone `\r` both read as `\n`. */
  function UniversalNewlines(s: string): (r: string)
    ensures '\r' !in r
    ensures |r| <= |s|
    decreases |s|
  {
    if |s| == 0 then ""
    else if s[0] == '\r' then
      if |s| > 1 && s[1] == '\n' then "\n" + UniversalNewlines(s[2..]) else "\n" + UniversalNewlines(s[1..])
    else [s[0]] + UniversalNewlines(s[1..])
  }

  /** The lines `for line in file` yields, without their line breaks (which `strip` removes anyway). */
  function Lines(content: string): seq<string> {
    Split(UniversalNewlines(content), '\n')
  }

  /** The entry `pip install -e .` adds for the project itself. */
  const EditableInstall := "-e ."

  /** A line is kept when, stripped, it is non-empty and not a comment. */
  predicate Kept(line: string) {
    var cleaned := Strip(line);
    cleaned != "" && !StartsWith(cleaned, "#")
  }

  /** The list the reading loop builds: the stripped kept lines, in order. */
  function Filtered(lines: seq<string>): seq<string>
    decreases |lines|
  {
    if |lines| == 0 then []
    else
      var last := lines[|lines| - 1];
      Filtered(lines[..|lines| - 1]) + (if Kept(last) then [Strip(last)] else [])
  }

  /** `list.remove(x)` when `x` is present, the list itself otherwise: only the first occurrence goes. */
  function RemoveFirst(xs: seq<string>, x: string): seq<string>
    decreases |xs|
  {
    if |xs| == 0 then []
    else if xs[0] == x then xs[1..]
    else [xs[0]] + RemoveFirst(xs[1..], x)
  }

  /** What `read_requirements(file_path)` returns. */
  function RequirementsSpec(fs: FS, filePath: Path): seq<string> {
    var read := ReadText(fs, filePath);
    var kept := if read.Ok? then Filtered(Lines(read.value)) else [];
    RemoveFirst(kept, EditableInstall)
  }

  /** The position of the first `x`, where `list.remove` looks for it. */
  function FirstIndex(xs: seq<string>, x: string): (i: nat)
    requires x in xs
    ensures i < |xs| && xs[i] == x && x !in xs[..i]
  {
    if xs[0] == x then 0
    else
      var j := FirstIndex(xs[1..], x);
      assert xs[..j + 1] == [xs[0]] + xs[1..][..j];
      j + 1
  }

  /** Removing at the first occurrence, as the search in `list.remove` finds it. */
  lemma {:induction false} RemoveFirstAt(xs: seq<string>, x: string, i: nat)
    requires i <= |xs| && x !in xs[..i]
    ensures i < |xs| && xs[i] == x ==> RemoveFirst(xs, x) == xs[..i] + xs[i + 1..]
    ensures i == |xs| ==> RemoveFirst(xs, x) == xs
    decreases i
  {
    if i > 0 {
      assert xs[0] != x by { assert xs[0] == xs[..i][0]; }
      assert xs[1..][..i - 1] == xs[..i][1..];
      RemoveFirstAt(xs[1..], x, i - 1);
      if i < |xs| && xs[i] == x {
        assert xs[..i] + xs[i + 1..] == [xs[0]] + (xs[1..][..i - 1] + xs[1..][i..]);
      } else if i == |xs| {
        assert xs == [xs[0]] + xs[1..];
      }
    }
  }

  /** `read_requirements` */
  method ReadRequirements(fs: FS, filePath: Path) returns (requirements: seq<string>)
    ensures requirements == RequirementsSpec(fs, filePath)
  {
    requirements := [];
    var read := ReadText(fs, filePath);
    if read.Ok? {
      var lines := Lines(read.value);
      for i := 0 to |lines|
        invariant requirements == Filtered(lines[..i])
      {
        assert lines[..i + 1][..i] == lines[..i];
        var cleaned := Strip(lines[i]);
        if cleaned != "" && !StartsWith(cleaned, "#") {
          requirements := requirements + [cleaned];
        }
      }
      assert lines[..|lines|] == lines;
    }
    var i := 0;
    while i < |requirements| && requirements[i] != EditableInstall
      invariant 0 <= i <= |requirements|
      invariant EditableInstall !in requirements[..i]
    {
      assert requirements[..i + 1] == requirements[..i] + [requirements[i]];
      i := i + 1;
    }
    RemoveFirstAt(requirements, EditableInstall, i);
    if i < |requirements| {
      requirements := requirements[..i] + requirements[i + 1..];
    }
  }

  /** The filter works line by line, so the kept lines come out in input order. */
  lemma {:induction false} FilteredConcat(a: seq<string>, b: seq<string>)
    ensures Filtered(a + b) == Filtered(a) + Filtered(b)
    decreases |b|
  {
    if |b| == 0 {
      assert a + b == a;
    } else {
      var b' := b[..|b| - 1];
      assert (a + b)[..|a + b| - 1] == a + b';
      assert (a + b)[|a + b| - 1] == b[|b| - 1];
      FilteredConcat(a, b');
    }
  }

  /**
   * Every entry is a stripped, non-empty, non-comment line of the input, and
   * there are at most as many entries as lines.
   */
  lemma {:induction false} FilteredEntries(lines: seq<string>)
    ensures |Filtered(lines)| <= |lines|
    ensures forall e :: e in Filtered(lines) ==>
      && e != "" && !StartsWith(e, "#") && Strip(e) == e
      && exists i :: 0 <= i < |lines| && Kept(lines[i]) && Strip(lines[i]) == e
    decreases |lines|
  {
    if |lines| > 0 {
      var init := lines[..|lines| - 1];
      var last := lines[|lines| - 1];
      FilteredEntries(init);
      StripIdempotent(last);
      forall e | e in Filtered(lines)
        ensures exists i :: 0 <= i < |lines| && Kept(lines[i]) && Strip(lines[i]) == e
      {
        if e in Filtered(init) {
          var i :| 0 <= i < |init| && Kept(init[i]) && Strip(init[i]) == e;
          assert lines[i] == init[i];
        } else {
          assert lines[|lines| - 1] == last;
        }
      }
    }
  }

  /**
   * Exactly one `x` goes, the first: the result is the list with its first
   * `x` cut out, and every later duplicate stays.
   */
  lemma {:induction false} RemoveFirstFacts(xs: seq<string>, x: string)
    ensures x !in xs ==> RemoveFirst(xs, x) == xs
    ensures x in xs ==> exists i :: 0 <= i < |xs| && xs[i] == x && x !in xs[..i]
                                   && RemoveFirst(xs, x) == xs[..i] + xs[i + 1..]
    ensures multiset(RemoveFirst(xs, x)) == multiset(xs) - multiset{x}
  {
    if x in xs {
      var i := FirstIndex(xs, x);
      RemoveFirstAt(xs, x, i);
      var front, back := xs[..i], xs[i + 1..];
      assert xs == front + [x] + back;
      assert multiset(xs) == multiset(front) + multiset{x} + multiset(back);
      assert multiset(front + back) == multiset(front) + multiset(back);
    } else {
      assert xs[..|xs|] == xs;
      RemoveFirstAt(xs, x, |xs|);
    }
  }

  /**
   * What `read_requirements` promises: an unreadable or missing file gives
   * `[]`; every entry is stripped, non-empty and not a comment; there are no
   * more entries than lines; and the kept lines lose only their first `-e .`.
   */
  lemma RequirementsFacts(fs: FS, filePath: Path)
    ensures !IsFile(fs, filePath) ==> RequirementsSpec(fs, filePath) == []
    ensures forall e :: e in RequirementsSpec(fs, filePath) ==> e != "" && !StartsWith(e, "#") && Strip(e) == e
    ensures IsFile(fs, filePath) ==>
      var kept := Filtered(Lines(fs[filePath].content));
      && |RequirementsSpec(fs, filePath)| <= |Lines(fs[filePath].content)|
      && multiset(RequirementsSpec(fs, filePath)) == multiset(kept) - multiset{EditableInstall}
  {
    var read := ReadText(fs, filePath);
    var kept := if read.Ok? then Filtered(Lines(read.value)) else [];
    if read.Ok? {
      FilteredEntries(Lines(read.value));
    }
    RemoveFirstFacts(kept, EditableInstall);
    forall e | e in RequirementsSpec(fs, filePath) ensures e in kept {
      assert e in multiset(RequirementsSpec(fs, filePath));
    }
    assert |RemoveFirst(kept, EditableInstall)| <= |kept| by {
      assert |multiset(RemoveFirst(kept, EditableInstall))| <= |multiset(kept)|;
    }
  }
}
