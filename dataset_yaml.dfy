/**
 * The dataset-description generator: it reads the class names from an input
 * YAML file, stores them as the map `{0: names[0], 1: names[1], ...}` under
 * the key `names`, and writes an output file made of one `key: value` line
 * per other entry, in insertion order, then a blank line, a `names:` line
 * and one `    idx: name` line per class.
 *
 * Parsing YAML is not modelled: the parse is a function parameter that
 * yields the document's `names` list (or its absence).
 */
module DatasetYaml {
  import opened Exceptions
  import opened FileSystem
  import opened PyStr

  /** The outcome of `yaml.safe_load`, as far as this code looks at it. */
  datatype YamlDoc =
    | Mapping(names: Option<seq<string>>)   // a mapping, with or without a `names` list
    | NotAMapping                           // a document that is not a mapping (no `.get`)
    | Malformed(message: string)            // the parser raised

  /** `{i: name for i, name in enumerate(names)}`, as the dict's items in order. */
  function Enumerate(names: seq<string>): seq<(nat, string)> {
    seq(|names|, i requires 0 <= i < |names| => (i, names[i]))
  }

  // ---------------------------------------------------------------------
  // The text written

  /** The text of a data line, without its newline. */
  function DataText(key: string, value: string): string {
    key + ": " + value
  }

  /** The data lines: one per entry whose key is not `names`, in insertion order. */
  function DataTexts(data: seq<(string, string)>): seq<string>
    decreases |data|
  {
    if data == [] then []
    else
      var last := data[|data| - 1];
      DataTexts(data[..|data| - 1]) + (if last.0 != "names" then [DataText(last.0, last.1)] else [])
  }

  /** The text of a name line, without its newline. */
  function NameText(idx: nat, name: string): string {
    "    " + NatToString(idx) + ": " + name
  }

  function NameTexts(items: seq<(nat, string)>): seq<string> {
    seq(|items|, i requires 0 <= i < |items| => NameText(items[i].0, items[i].1))
  }

  /** Each line followed by a newline. */
  function Terminated(lines: seq<string>): string
    decreases |lines|
  {
    if lines == [] then "" else lines[0] + "\n" + Terminated(lines[1..])
  }

  const NamesHeader: string := "\nnames:\n"

  /** The whole output file. */
  function YamlText(data: seq<(string, string)>, items: seq<(nat, string)>): string {
    Terminated(DataTexts(data)) + NamesHeader + Terminated(NameTexts(items))
  }

  lemma {:induction false} TerminatedConcat(a: seq<string>, b: seq<string>)
    ensures Terminated(a + b) == Terminated(a) + Terminated(b)
    decreases |a|
  {
    if a == [] {
      assert a + b == b;
    } else {
      TerminatedConcat(a[1..], b);
      assert (a + b)[1..] == a[1..] + b;
    }
  }

  /** Terminating every line is joining with newlines and ending with one. */
  lemma {:induction false} TerminatedJoin(lines: seq<string>)
    ensures Terminated(lines) == Join(lines + [""], '\n')
    decreases |lines|
  {
    if lines != [] {
      TerminatedJoin(lines[1..]);
      assert (lines + [""])[1..] == lines[1..] + [""];
    }
  }

  // ---------------------------------------------------------------------
  // Reading the names back

  /** The length of the run of decimal digits at the start of `s`. */
  function DigitPrefix(s: string): (n: nat)
    ensures n <= |s|
    ensures forall k :: 0 <= k < n ==> IsDigit(s[k])
    ensures n < |s| ==> !IsDigit(s[n])
    decreases |s|
  {
    if |s| > 0 && IsDigit(s[0]) then 1 + DigitPrefix(s[1..]) else 0
  }

  lemma {:induction false} DigitPrefixOf(d: string, t: string)
    requires forall k :: 0 <= k < |d| ==> IsDigit(d[k])
    requires |t| > 0 && !IsDigit(t[0])
    ensures DigitPrefix(d + t) == |d|
    decreases |d|
  {
    if d != [] {
      assert (d + t)[1..] == d[1..] + t;
      DigitPrefixOf(d[1..], t);
    } else {
      assert d + t == t;
    }
  }

  /** Read a line `    <idx>: <name>` back into its index and name. */
  function ReadNameLine(line: string): Option<(nat, string)> {
    if !StartsWith(line, "    ") then None
    else
      var rest := line[4..];
      var d := DigitPrefix(rest);
      if d == 0 || !StartsWith(rest[d..], ": ") then None
      else Some((ParseDigits(rest[..d]), rest[d + 2..]))
  }

  /** Read consecutive name lines, whose indices must count up from `start`. */
  function ReadEntries(lines: seq<string>, start: nat): Option<seq<string>>
    decreases |lines|
  {
    if lines == [] then Some([])
    else match ReadNameLine(lines[0])
      case None => None
      case Some(entry) =>
        if entry.0 != start then None
        else match ReadEntries(lines[1..], start + 1)
          case None => None
          case Some(rest) => Some([entry.1] + rest)
  }

  /** The index of the first line equal to `target`, or -1. */
  function IndexOf(lines: seq<string>, target: string): (k: int)
    ensures -1 <= k < |lines|
    ensures k >= 0 ==> lines[k] == target && forall i :: 0 <= i < k ==> lines[i] != target
    ensures k == -1 ==> forall i :: 0 <= i < |lines| ==> lines[i] != target
    decreases |lines|
  {
    if lines == [] then -1
    else if lines[0] == target then 0
    else
      var k := IndexOf(lines[1..], target);
      if k == -1 then -1 else k + 1
  }

  /** A reader for the generated file: the names listed after the `names:` line. */
  function NamesFromYaml(text: string): Option<seq<string>> {
    var lines := Split(text, '\n');
    var k := IndexOf(lines, "names:");
    if k < 0 then None
    else
      var block := lines[k + 1..];
      var entries := if |block| > 0 && block[|block| - 1] == "" then block[..|block| - 1] else block;
      ReadEntries(entries, 0)
  }

  // ---------------------------------------------------------------------
  // Properties of the output

  predicate NoNewlines(data: seq<(string, string)>, names: seq<string>) {
    && (forall i :: 0 <= i < |data| ==> '\n' !in data[i].0 && '\n' !in data[i].1)
    && (forall i :: 0 <= i < |names| ==> '\n' !in names[i])
  }

  /** The entries written as data lines: those whose key is not `names`, in insertion order. */
  function Kept(data: seq<(string, string)>): seq<(string, string)>
    decreases |data|
  {
    if data == [] then []
    else
      var last := data[|data| - 1];
      Kept(data[..|data| - 1]) + (if last.0 != "names" then [last] else [])
  }

  /** An entry is kept exactly when it is in the data and its key is not `names`. */
  lemma {:induction false} KeptMembers(data: seq<(string, string)>)
    ensures forall e :: e in Kept(data) <==> e in data && e.0 != "names"
    decreases |data|
  {
    if data != [] {
      var init := data[..|data| - 1];
      KeptMembers(init);
      assert data == init + [data[|data| - 1]];
    }
  }

  /** The kept entries of two groups are those of the first, then those of the second: the order is kept. */
  lemma {:induction false} KeptConcat(a: seq<(string, string)>, b: seq<(string, string)>)
    ensures Kept(a + b) == Kept(a) + Kept(b)
    decreases |b|
  {
    if b == [] {
      assert a + b == a;
    } else {
      var init := b[..|b| - 1];
      KeptConcat(a, init);
      assert (a + b)[..|a + b| - 1] == a + init;
      assert (a + b)[|a + b| - 1] == b[|b| - 1];
    }
  }

  /**
   * Data line `i` is `key: value` for the `i`-th entry whose key is not
   * `names`, and there is one line per such entry; without newlines in the
   * entries, each is a single line.
   */
  lemma {:induction false} DataTextsShape(data: seq<(string, string)>)
    requires forall i :: 0 <= i < |data| ==> '\n' !in data[i].0 && '\n' !in data[i].1
    ensures |DataTexts(data)| == |Kept(data)|
    ensures forall i :: 0 <= i < |DataTexts(data)| ==>
      DataTexts(data)[i] == Kept(data)[i].0 + ": " + Kept(data)[i].1
    ensures forall i :: 0 <= i < |DataTexts(data)| ==> '\n' !in DataTexts(data)[i] && ' ' in DataTexts(data)[i]
    decreases |data|
  {
    if data != [] {
      var init := data[..|data| - 1];
      DataTextsShape(init);
      var last := data[|data| - 1];
      assert DataText(last.0, last.1)[|last.0| + 1] == ' ';
      forall i | 0 <= i < |DataTexts(init)|
        ensures DataTexts(data)[i] == DataTexts(init)[i] && Kept(data)[i] == Kept(init)[i]
      {
      }
    }
  }

  lemma NameTextsShape(names: seq<string>)
    requires forall i :: 0 <= i < |names| ==> '\n' !in names[i]
    ensures forall i :: 0 <= i < |names| ==>
      '\n' !in NameTexts(Enumerate(names))[i] && NameTexts(Enumerate(names))[i][0] == ' '
  {
    forall i | 0 <= i < |names|
      ensures '\n' !in NameTexts(Enumerate(names))[i] && NameTexts(Enumerate(names))[i][0] == ' '
    {
      var d := NatToString(i);
      assert NameTexts(Enumerate(names))[i] == "    " + d + ": " + names[i];
      assert forall k :: 0 <= k < |d| ==> d[k] != '\n';
    }
  }

  /** The file is the data lines, a blank line, `names:` and the name lines, each ended by a newline. */
  lemma YamlTextTerminated(data: seq<(string, string)>, items: seq<(nat, string)>)
    ensures YamlText(data, items) == Terminated(DataTexts(data) + ["", "names:"] + NameTexts(items))
  {
    var dt := DataTexts(data);
    var nt := NameTexts(items);
    TerminatedConcat(dt, ["", "names:"] + nt);
    TerminatedConcat(["", "names:"], nt);
    assert Terminated(["", "names:"]) == NamesHeader;
    assert dt + ["", "names:"] + nt == dt + (["", "names:"] + nt);
  }

  /**
   * The file's lines are the data lines, a blank line, `names:`, the name
   * lines, and the empty text after the final newline.
   */
  lemma YamlLines(data: seq<(string, string)>, names: seq<string>)
    requires NoNewlines(data, names)
    ensures Split(YamlText(data, Enumerate(names)), '\n')
            == DataTexts(data) + ["", "names:"] + NameTexts(Enumerate(names)) + [""]
  {
    var dt := DataTexts(data);
    var nt := NameTexts(Enumerate(names));
    var body := dt + ["", "names:"] + nt;
    YamlTextTerminated(data, Enumerate(names));
    TerminatedJoin(body);
    DataTextsShape(data);
    NameTextsShape(names);
    var all := body + [""];
    forall i | 0 <= i < |all| ensures '\n' !in all[i] {
      if i < |dt| {
        assert all[i] == dt[i];
      } else if |dt| + 2 <= i < |dt| + 2 + |nt| {
        assert all[i] == nt[i - |dt| - 2];
      }
    }
    SplitJoin(all, '\n');
  }

  /** The `names:` line occurs exactly once, right after the data lines and the blank line. */
  lemma HeaderOnce(data: seq<(string, string)>, names: seq<string>)
    requires NoNewlines(data, names)
    ensures var lines := Split(YamlText(data, Enumerate(names)), '\n');
      forall i :: 0 <= i < |lines| ==> (lines[i] == "names:" <==> i == |DataTexts(data)| + 1)
  {
    YamlLines(data, names);
    DataTextsShape(data);
    NameTextsShape(names);
    var dt := DataTexts(data);
    var nt := NameTexts(Enumerate(names));
    var lines := dt + ["", "names:"] + nt + [""];
    forall i | 0 <= i < |lines| && i != |dt| + 1 ensures lines[i] != "names:" {
      if i < |dt| {
        assert lines[i] == dt[i];
        assert ' ' in dt[i];
      } else if |dt| + 2 <= i < |dt| + 2 + |nt| {
        assert lines[i] == nt[i - |dt| - 2];
      }
    }
  }

  lemma NameLineRead(idx: nat, name: string)
    ensures ReadNameLine(NameText(idx, name)) == Some((idx, name))
  {
    var d := NatToString(idx);
    var line := NameText(idx, name);
    assert line[4..] == d + (": " + name);
    DigitPrefixOf(d, ": " + name);
    assert line[4..][|d|..] == ": " + name;
    assert line[4..][..|d|] == d;
    ParseNatToString(idx);
  }

  /** Name lines for `names`, numbered from `start`. */
  function NumberedLines(names: seq<string>, start: nat): (r: seq<string>)
    ensures |r| == |names|
  {
    seq(|names|, i requires 0 <= i < |names| => NameText(start + i, names[i]))
  }

  lemma {:induction false} EntriesRead(names: seq<string>, start: nat)
    ensures ReadEntries(NumberedLines(names, start), start) == Some(names)
    decreases |names|
  {
    var lines := NumberedLines(names, start);
    if names != [] {
      NameLineRead(start, names[0]);
      var tail := NumberedLines(names[1..], start + 1);
      assert lines[1..] == tail by {
        forall i | 0 <= i < |tail| ensures lines[1..][i] == tail[i] {
          assert names[1..][i] == names[i + 1];
        }
      }
      EntriesRead(names[1..], start + 1);
      assert [names[0]] + names[1..] == names;
    }
  }

  /** Reading the generated file back gives the original names, in order. */
  lemma NamesRoundTrip(data: seq<(string, string)>, names: seq<string>)
    requires NoNewlines(data, names)
    ensures NamesFromYaml(YamlText(data, Enumerate(names))) == Some(names)
  {
    YamlLines(data, names);
    HeaderOnce(data, names);
    var dt := DataTexts(data);
    var nt := NameTexts(Enumerate(names));
    var lines := dt + ["", "names:"] + nt + [""];
    assert Split(YamlText(data, Enumerate(names)), '\n') == lines;
    var k := IndexOf(lines, "names:");
    assert lines[|dt| + 1] == "names:";
    assert k == |dt| + 1;
    assert lines[|dt| + 2..] == nt + [""];
    assert (nt + [""])[..|nt|] == nt;
    assert nt == NumberedLines(names, 0);
    EntriesRead(names, 0);
  }

  /** With no class names the file ends with the bare `names:` header. */
  lemma EmptyNamesEnding(data: seq<(string, string)>)
    ensures EndsWith(YamlText(data, Enumerate([])), NamesHeader)
  {
    assert Terminated(NameTexts(Enumerate([]))) == "";
    var t := YamlText(data, Enumerate([]));
    assert t == Terminated(DataTexts(data)) + NamesHeader;
    assert t[|t| - |NamesHeader|..] == NamesHeader;
  }

  // ---------------------------------------------------------------------
  // The generator

  /** `generate_yaml` as an effect: a missing `names` entry raises `KeyError` after the header is written. */
  function GenerateEffect(fs: FS, outputYamlPath: Path, data: seq<(string, string)>,
                          names: Option<seq<(nat, string)>>): Effect
  {
    match names
    case None =>
      var e := WriteTextEffect(fs, outputYamlPath, Terminated(DataTexts(data)) + NamesHeader);
      if e.err.Some? then e else Effect(e.fs, Some(KeyNotFound("names")))
    case Some(items) => WriteTextEffect(fs, outputYamlPath, YamlText(data, items))
  }

  /** The `names` entry `read_names_from_yaml` derives from a parsed document, or the exception it raises. */
  function NamesEntry(fs: FS, inputYamlPath: Path, parse: string -> YamlDoc): Result<seq<(nat, string)>> {
    match ReadText(fs, inputYamlPath)
    case Err(e) => Err(e)
    case Ok(text) =>
      match parse(text)
      case Malformed(message) => Err(YamlError(message))
      case NotAMapping => Err(AttributeError("get"))
      case Mapping(names) => Ok(Enumerate(if names.Some? then names.value else []))
  }

  class DatasetYamlGenerator {
    const inputYamlPath: Path
    const outputYamlPath: Path
    /** The entries of `self.data` other than `names`, in insertion order. */
    var data: seq<(string, string)>
    /** `self.data['names']` as its items, once set. */
    var names: Option<seq<(nat, string)>>

    constructor (inputYamlPath: Path, outputYamlPath: Path, data: seq<(string, string)>)
      ensures this.inputYamlPath == inputYamlPath && this.outputYamlPath == outputYamlPath
      ensures this.data == data && names == None
    {
      this.inputYamlPath := inputYamlPath;
      this.outputYamlPath := outputYamlPath;
      this.data := data;
      names := None;
    }

    /** `read_names_from_yaml`: set `names` to `i ↦ names[i]`, replacing any earlier value. */
    method ReadNamesFromYaml(fs: FS, parse: string -> YamlDoc) returns (err: Option<Error>)
      modifies this
      ensures data == old(data)
      ensures NamesEntry(fs, inputYamlPath, parse).Ok? ==>
        err.None? && names == Some(NamesEntry(fs, inputYamlPath, parse).value)
      ensures NamesEntry(fs, inputYamlPath, parse).Err? ==>
        err == Some(NamesEntry(fs, inputYamlPath, parse).error) && names == old(names)
    {
      var text := ReadText(fs, inputYamlPath);
      if text.Err? {
        return Some(text.error);
      }
      var doc := parse(text.value);
      if doc.Malformed? {
        return Some(YamlError(doc.message));
      }
      if doc.NotAMapping? {
        return Some(AttributeError("get"));
      }
      var list := if doc.names.Some? then doc.names.value else [];
      var items: seq<(nat, string)> := [];
      for i := 0 to |list|
        invariant items == Enumerate(list[..i])
      {
        items := items + [(i, list[i])];
      }
      assert list[..|list|] == list;
      names := Some(items);
      err := None;
    }

    /** The first loop of `generate_yaml`: the data lines, each ended by a newline. */
    method DataBlock() returns (text: string)
      ensures text == Terminated(DataTexts(data))
    {
      text := "";
      for i := 0 to |data|
        invariant text == Terminated(DataTexts(data[..i]))
      {
        assert data[..i + 1][..i] == data[..i];
        assert data[..i + 1][i] == data[i];
        if data[i].0 != "names" {
          assert DataTexts(data[..i + 1]) == DataTexts(data[..i]) + [DataText(data[i].0, data[i].1)];
          TerminatedConcat(DataTexts(data[..i]), [DataText(data[i].0, data[i].1)]);
          text := text + DataText(data[i].0, data[i].1) + "\n";
        } else {
          assert DataTexts(data[..i + 1]) == DataTexts(data[..i]) + [];
          assert DataTexts(data[..i]) + [] == DataTexts(data[..i]);
        }
      }
      assert data[..|data|] == data;
    }

    /** The second loop of `generate_yaml`: one indented `idx: name` line per class. */
    static method NamesBlock(items: seq<(nat, string)>) returns (text: string)
      ensures text == Terminated(NameTexts(items))
    {
      text := "";
      for i := 0 to |items|
        invariant text == Terminated(NameTexts(items[..i]))
      {
        assert NameTexts(items[..i + 1]) == NameTexts(items[..i]) + [NameText(items[i].0, items[i].1)];
        TerminatedConcat(NameTexts(items[..i]), [NameText(items[i].0, items[i].1)]);
        text := text + NameText(items[i].0, items[i].1) + "\n";
      }
      assert items[..|items|] == items;
    }

    /** `generate_yaml`: the data lines, then the header, then the name lines. */
    method GenerateYaml(disk: Disk) returns (err: Option<Error>)
      modifies disk
      ensures Effect(disk.fs, err) == GenerateEffect(old(disk.fs), outputYamlPath, data, names)
      ensures old(disk.Valid()) ==> disk.Valid()
    {
      var text := DataBlock();
      text := text + NamesHeader;
      if names.None? {
        err := disk.WriteText(outputYamlPath, text);
        if err.None? {
          err := Some(KeyNotFound("names"));
        }
        return;
      }
      var nameLines := NamesBlock(names.value);
      err := disk.WriteText(outputYamlPath, text + nameLines);
    }

    /** `run`: read the names, then write the output; a failed read writes nothing. */
    method Run(disk: Disk, parse: string -> YamlDoc) returns (err: Option<Error>)
      modifies this, disk
      ensures data == old(data)
      ensures match NamesEntry(old(disk.fs), inputYamlPath, parse)
        case Err(e) => err == Some(e) && disk.fs == old(disk.fs)
        case Ok(items) => names == Some(items) && Effect(disk.fs, err) == GenerateEffect(old(disk.fs), outputYamlPath, data, names)
      ensures old(disk.Valid()) ==> disk.Valid()
    {
      err := ReadNamesFromYaml(disk.fs, parse);
      if err.Some? {
        return;
      }
      err := GenerateYaml(disk);
    }
  }
}
