/** The corpus flattening script (DataPreprocessing/cleaner.py): the JSON
    record of every parsed paper of a directory becomes a plain-text file in
    a sibling directory named `converted`. Reading the JSON files is a
    function parameter; the files written are returned as a list of writes,
    each with the final contents of its file. */
module Cleaner {
  import opened Base

  /** The part of a section the script uses. */
  datatype Section = Section(text: string)

  /** The parts of a parsed paper record the script uses; `summary` holds its
      `abstract` entry. */
  datatype Paper = Paper(title: string, summary: string, sections: seq<Section>)

  /** Python `os.path.join(a, b)`: an absolute `b` replaces `a`; otherwise a
      slash is put between them unless `a` is empty or already ends in one. */
  function JoinPath(a: string, b: string): string
  {
    if |b| > 0 && b[0] == '/' then b
    else if a == [] || a[|a| - 1] == '/' then a + b
    else a + "/" + b
  }

  /** The texts of the given sections, each followed by a blank line. */
  function SectionsText(sections: seq<Section>): string
    decreases |sections|
  {
    if sections == [] then ""
    else SectionsText(sections[..|sections| - 1]) + sections[|sections| - 1].text + "\n\n"
  }

  /** The text written for one paper: title, abstract and every section but
      the last, each followed by a blank line. */
  function FlatText(p: Paper): string
  {
    p.title + "\n\n" + p.summary + "\n\n" + SectionsText(DropLast(p.sections, 1))
  }

  function TotalTextLength(sections: seq<Section>): nat
    decreases |sections|
  {
    if sections == [] then 0
    else TotalTextLength(sections[..|sections| - 1]) + |sections[|sections| - 1].text|
  }

  lemma {:induction false} SectionsTextLength(sections: seq<Section>)
    ensures |SectionsText(sections)| == TotalTextLength(sections) + 2 * |sections|
    decreases |sections|
  {
    if sections != [] {
      SectionsTextLength(sections[..|sections| - 1]);
    }
  }

  /** The length of the text: the title, the abstract and all sections but
      the last, plus two newlines after each of them. */
  lemma FlatTextLength(p: Paper)
    ensures var kept := if |p.sections| > 0 then |p.sections| - 1 else 0;
      |FlatText(p)| == |p.title| + |p.summary| + TotalTextLength(p.sections[..kept]) + 2 * (2 + kept)
  {
    SectionsTextLength(DropLast(p.sections, 1));
  }

  /** The last section is never written: replacing it changes nothing. */
  lemma LastSectionIgnored(p: Paper, other: Section)
    requires p.sections != []
    ensures FlatText(p.(sections := p.sections[..|p.sections| - 1] + [other])) == FlatText(p)
  {
    var q := p.(sections := p.sections[..|p.sections| - 1] + [other]);
    assert DropLast(q.sections, 1) == DropLast(p.sections, 1);
  }

  /** With at most one section the text is just title and abstract. */
  lemma FewSections(p: Paper)
    requires |p.sections| <= 1
    ensures FlatText(p) == p.title + "\n\n" + p.summary + "\n\n"
  {
    assert DropLast(p.sections, 1) == [];
  }

  /** A section added before the last one is written after the sections
      already there, in order. */
  lemma {:induction false} SectionsInOrder(p: Paper, s: Section)
    requires p.sections != []
    ensures var n := |p.sections|;
      FlatText(p.(sections := p.sections[..n - 1] + [s, p.sections[n - 1]])) == FlatText(p) + s.text + "\n\n"
  {
    var n := |p.sections|;
    var q := p.(sections := p.sections[..n - 1] + [s, p.sections[n - 1]]);
    var kept := DropLast(q.sections, 1);
    assert kept == p.sections[..n - 1] + [s];
    assert kept[..|kept| - 1] == DropLast(p.sections, 1);
  }

  /** A section entry of a JSON record; its `text` key may be missing. */
  datatype SectionRecord = SectionRecord(text: Option<string>)

  /** A JSON record as loaded: a key the record does not have is None. */
  datatype Record = Record(title: Option<string>, summary: Option<string>, sections: Option<seq<SectionRecord>>)

  /** The number of leading section entries that have a text. */
  function TextPrefix(ss: seq<SectionRecord>): (n: nat)
    ensures n <= |ss|
    ensures forall k :: 0 <= k < n ==> ss[k].text.Some?
    ensures n < |ss| ==> ss[n].text.None?
    decreases |ss|
  {
    if ss == [] || ss[0].text.None? then 0
    else
      var m := TextPrefix(ss[1..]);
      assert forall k :: 1 <= k < 1 + m ==> ss[k] == ss[1..][k - 1];
      1 + m
  }

  /** The sections of entries that all have a text. */
  function Texts(ss: seq<SectionRecord>): (r: seq<Section>)
    requires forall k :: 0 <= k < |ss| ==> ss[k].text.Some?
    ensures |r| == |ss|
    ensures forall k :: 0 <= k < |ss| ==> r[k] == Section(ss[k].text.value)
    decreases |ss|
  {
    if ss == [] then []
    else Texts(ss[..|ss| - 1]) + [Section(ss[|ss| - 1].text.value)]
  }

  /** Whether the record has every key the script reads: a title, an
      abstract, sections, and a text in every section but the last. */
  predicate Finishes(r: Record)
  {
    && r.title.Some? && r.summary.Some? && r.sections.Some?
    && TextPrefix(DropLast(r.sections.value, 1)) == |DropLast(r.sections.value, 1)|
  }

  /** What ends up in the output file of a record: the title, the abstract
      and the texts of the sections but the last, each followed by a blank
      line, up to the first key the record lacks. The file is created before
      any key is read, so a record without a title leaves an empty file. */
  function RecordText(r: Record): string
  {
    if r.title.None? then ""
    else if r.summary.None? then r.title.value + "\n\n"
    else
      var head := r.title.value + "\n\n" + r.summary.value + "\n\n";
      if r.sections.None? then head
      else
        var kept := DropLast(r.sections.value, 1);
        head + SectionsText(Texts(kept[..TextPrefix(kept)]))
  }

  /** The paper a record describes, when it has every key the script reads.
      The text of the last section is never read, so it may be missing; the
      paper then has an empty last section. */
  function AsPaper(r: Record): Option<Paper>
  {
    if r.title.None? || r.summary.None? || r.sections.None? then None
    else
      var ss := r.sections.value;
      var kept := DropLast(ss, 1);
      if TextPrefix(kept) < |kept| then None
      else
        var last := if ss == [] then [] else [Section(if ss[|ss| - 1].text.Some? then ss[|ss| - 1].text.value else "")];
        Some(Paper(r.title.value, r.summary.value, Texts(kept) + last))
  }

  /** The script gets through a record exactly when it describes a paper,
      and the file then holds that paper's text. */
  lemma RecordTextOfPaper(r: Record)
    ensures Finishes(r) <==> AsPaper(r).Some?
    ensures AsPaper(r).Some? ==> RecordText(r) == FlatText(AsPaper(r).value)
  {
    if AsPaper(r).Some? {
      var ss := r.sections.value;
      var kept := DropLast(ss, 1);
      assert kept[..|kept|] == kept;
      var p := AsPaper(r).value;
      assert DropLast(p.sections, 1) == Texts(kept);
    }
  }

  /** A record that lacks a key leaves in its file a prefix of what the
      record with that key and the ones after it would have left. */
  lemma PartialTextIsPrefix(r: Record, whole: Record)
    requires Finishes(whole)
    requires r.title.Some? ==> r.title == whole.title
    requires r.title.Some? && r.summary.Some? ==> r.summary == whole.summary
    requires r.title.Some? && r.summary.Some? && r.sections.Some? ==> r.sections == whole.sections
    ensures RecordText(r) <= RecordText(whole)
  {
    var t, s := whole.title.value, whole.summary.value;
    var kept := DropLast(whole.sections.value, 1);
    assert kept[..|kept|] == kept;
    var text := t + "\n\n" + s + "\n\n" + SectionsText(Texts(kept));
    assert RecordText(whole) == text;
    if r.title.Some? && r.summary.None? {
      assert text[..|t| + 2] == t + "\n\n";
    } else if r.title.Some? && r.summary.Some? && r.sections.None? {
      assert text[..|t| + |s| + 4] == t + "\n\n" + s + "\n\n";
    }
  }

  /** One more section entry with a text adds its text and a blank line. */
  lemma SectionsTextSnoc(ss: seq<SectionRecord>, i: nat)
    requires i < TextPrefix(ss)
    ensures SectionsText(Texts(ss[..i + 1])) == SectionsText(Texts(ss[..i])) + ss[i].text.value + "\n\n"
  {
    var t := Texts(ss[..i + 1]);
    assert ss[..i + 1][..i] == ss[..i];
    assert t[..i] == Texts(ss[..i]);
  }

  /** The writes for the section entries, in order, up to the first entry
      without a text; `complete` says whether every entry had one. */
  method WriteSections(kept: seq<SectionRecord>) returns (body: string, complete: bool)
    ensures body == SectionsText(Texts(kept[..TextPrefix(kept)]))
    ensures complete <==> TextPrefix(kept) == |kept|
  {
    body := "";
    var i := 0;
    while i < |kept|
      invariant 0 <= i <= |kept| && i <= TextPrefix(kept)
      invariant body == SectionsText(Texts(kept[..i]))
    {
      if kept[i].text.None? {
        return body, false;
      }
      SectionsTextSnoc(kept, i);
      body := body + kept[i].text.value + "\n\n";
      i := i + 1;
    }
    return body, true;
  }

  /** The writes of the output file for one record, in order, and whether
      they got to the end of the record. */
  method WriteText(r: Record) returns (out: string, complete: bool)
    ensures out == RecordText(r)
    ensures complete <==> Finishes(r)
  {
    if r.title.None? {
      return "", false;
    }
    out := r.title.value + "\n\n";
    if r.summary.None? {
      return out, false;
    }
    out := out + r.summary.value + "\n\n";
    if r.sections.None? {
      return out, false;
    }
    var body;
    body, complete := WriteSections(DropLast(r.sections.value, 1));
    out := out + body;
  }

  /** The directory the text files go to: `dir_path` with its last
      `/`-separated component dropped, joined with `converted`. */
  function ConvertedDir(dirPath: string): string
  {
    JoinPath(Join("/", DropLast(Split(dirPath, '/'), 1)), "converted")
  }

  /** `converted` replaces the last component of the directory path. With no
      slash at all the result is the relative `converted`. */
  lemma ConvertedDirReplacesLastComponent(dirPath: string)
    ensures ConvertedDir(dirPath) ==
      match LastIndex(dirPath, '/')
      case None => "converted"
      case Some(j) => JoinPath(dirPath[..j], "converted")
  {
    SplitFront(dirPath, '/');
    match LastIndex(dirPath, '/')
    case None =>
    case Some(j) => JoinSplit(dirPath[..j], '/');
  }

  lemma JoinConverted(parent: string)
    requires parent != [] && parent[|parent| - 1] != '/'
    ensures JoinPath(parent, "converted") == parent + "/converted"
  {
    var name := "converted";
    assert name[0] == 'c';
    assert JoinPath(parent, name) == parent + "/" + name;
  }

  lemma LastSlashAfter(parent: string, last: string)
    requires '/' !in last
    ensures var d := parent + "/" + last;
      LastIndex(d, '/') == Some(|parent|) && d[..|parent|] == parent
  {
    var d := parent + "/" + last;
    assert d[|parent| + 1..] == last;
    assert d[|parent|] == '/';
    LastIndexAt(d, '/', |parent|);
    assert d[..|parent|] == parent;
  }

  /** For a directory below a parent path, `converted` is a sibling of it. */
  lemma ConvertedDirIsSibling(parent: string, last: string)
    requires parent != [] && parent[|parent| - 1] != '/' && '/' !in last
    ensures ConvertedDir(parent + "/" + last) == parent + "/converted"
  {
    LastSlashAfter(parent, last);
    ConvertedDirReplacesLastComponent(parent + "/" + last);
    JoinConverted(parent);
  }

  /** The name of the text file: the input name without its last five
      characters (the `.json` extension), plus `.txt`. */
  function OutputName(file: string): (r: string)
    ensures |r| == (if |file| >= 5 then |file| - 5 else 0) + 4
    ensures r[..|r| - 4] <= file && r[|r| - 4..] == ".txt"
  {
    DropLast(file, 5) + ".txt"
  }

  lemma OutputNameOfJson(stem: string)
    ensures OutputName(stem + ".json") == stem + ".txt"
  {
    assert DropLast(stem + ".json", 5) == stem;
  }

  /** Where the text of `file` is written. */
  function OutputPath(dirPath: string, file: string): string
  {
    JoinPath(ConvertedDir(dirPath), DropLast(file, 5)) + ".txt"
  }

  /** For a JSON file name from a directory listing, the text file sits in
      the converted directory under the same stem. */
  lemma OutputPathOfJson(dirPath: string, stem: string)
    requires stem != [] && '/' !in stem
    ensures OutputPath(dirPath, stem + ".json") == ConvertedDir(dirPath) + "/" + OutputName(stem + ".json")
  {
    OutputNameOfJson(stem);
    assert DropLast(stem + ".json", 5) == stem;
    var c := ConvertedDir(dirPath);
    assert c[|c| - 9..] == "converted";
    assert stem[0] in stem;
  }

  /** A listed name that ends in `.json` after a non-empty stem, with no
      slash. */
  predicate IsJsonName(file: string)
  {
    |file| > 5 && file[|file| - 5..] == ".json" && '/' !in file
  }

  /** Names that differ only in their last five characters share one output
      path (`a.json` and `a.JSON`, say), so the later of them overwrites the
      file of the earlier. */
  lemma SameStemSameOutput(dirPath: string, stem: string, e1: string, e2: string)
    requires |e1| == 5 && |e2| == 5
    ensures OutputPath(dirPath, stem + e1) == OutputPath(dirPath, stem + e2)
  {
    assert DropLast(stem + e1, 5) == stem;
    assert DropLast(stem + e2, 5) == stem;
  }

  /** Distinct `.json` names get distinct output paths. */
  lemma OutputPathInjective(dirPath: string, f1: string, f2: string)
    requires IsJsonName(f1) && IsJsonName(f2)
    ensures OutputPath(dirPath, f1) == OutputPath(dirPath, f2) ==> f1 == f2
  {
    var s1, s2 := f1[..|f1| - 5], f2[..|f2| - 5];
    assert f1 == s1 + ".json" && f2 == s2 + ".json";
    assert forall k :: 0 <= k < |s1| ==> s1[k] == f1[k];
    assert forall k :: 0 <= k < |s2| ==> s2[k] == f2[k];
    OutputPathOfJson(dirPath, s1);
    OutputPathOfJson(dirPath, s2);
    OutputNameOfJson(s1);
    OutputNameOfJson(s2);
    var c := ConvertedDir(dirPath) + "/";
    var p1, p2 := c + (s1 + ".txt"), c + (s2 + ".txt");
    assert OutputPath(dirPath, f1) == p1 && OutputPath(dirPath, f2) == p2;
    if p1 == p2 {
      assert p1[|c|..] == s1 + ".txt" && p2[|c|..] == s2 + ".txt";
      assert (s1 + ".txt")[..|s1|] == s1 && (s2 + ".txt")[..|s2|] == s2;
    }
  }

  /** One file written by the script: its path and its contents. */
  datatype Written = Written(path: string, text: string)

  /** Whether `file` of the directory opens and parses as a JSON record. */
  predicate Loads(dirPath: string, file: string, load: string -> Option<Record>)
  {
    load(JoinPath(dirPath, file)).Some?
  }

  /** Whether the script gets through `file`: it loads, and its record has
      every key the script reads. */
  predicate Converts(dirPath: string, file: string, load: string -> Option<Record>)
  {
    Loads(dirPath, file, load) && Finishes(load(JoinPath(dirPath, file)).value)
  }

  /** What the script leaves in the output file of a file that loads. */
  function WriteFor(dirPath: string, file: string, load: string -> Option<Record>): Written
    requires Loads(dirPath, file, load)
  {
    Written(OutputPath(dirPath, file), RecordText(load(JoinPath(dirPath, file)).value))
  }

  /** What the script does with the listed files: the files it writes, in
      order, and whether it got to the end of the listing. A file that does
      not load stops it before anything is written for that file; a record
      that lacks a key stops it after its output file was created and
      partly written. */
  function Conversion(dirPath: string, files: seq<string>, load: string -> Option<Record>): (seq<Written>, bool)
    decreases |files|
  {
    if files == [] then ([], true)
    else if !Loads(dirPath, files[0], load) then ([], false)
    else if !Converts(dirPath, files[0], load) then ([WriteFor(dirPath, files[0], load)], false)
    else
      var rest := Conversion(dirPath, files[1..], load);
      ([WriteFor(dirPath, files[0], load)] + rest.0, rest.1)
  }

  /** The position of the first listed file the script does not get through,
      or the length of the listing. */
  function FirstFailure(dirPath: string, files: seq<string>, load: string -> Option<Record>): (n: nat)
    ensures n <= |files|
    ensures forall k :: 0 <= k < n ==> Converts(dirPath, files[k], load)
    ensures n < |files| ==> !Converts(dirPath, files[n], load)
    decreases |files|
  {
    if files == [] || !Converts(dirPath, files[0], load) then 0
    else
      var m := FirstFailure(dirPath, files[1..], load);
      assert forall k | 1 <= k < 1 + m :: Converts(dirPath, files[k], load) by {
        forall k | 1 <= k < 1 + m ensures Converts(dirPath, files[k], load) {
          assert files[k] == files[1..][k - 1];
        }
      }
      1 + m
  }

  /** The script gets to the end exactly when it gets through every file,
      and then writes one file per input. Otherwise it stops at the first
      file it does not get through: it has written one file for each file
      before it, plus a partial one for that file when it loads. */
  lemma {:induction false} ConversionLength(dirPath: string, files: seq<string>, load: string -> Option<Record>)
    ensures var n := FirstFailure(dirPath, files, load);
      && (Conversion(dirPath, files, load).1 <==> forall i :: 0 <= i < |files| ==> Converts(dirPath, files[i], load))
      && (Conversion(dirPath, files, load).1 <==> n == |files|)
      && |Conversion(dirPath, files, load).0| == (if n < |files| && Loads(dirPath, files[n], load) then n + 1 else n)
    decreases |files|
  {
    if files != [] && Converts(dirPath, files[0], load) {
      var rest := files[1..];
      ConversionLength(dirPath, rest, load);
      var next := Conversion(dirPath, rest, load);
      assert Conversion(dirPath, files, load).0 == [WriteFor(dirPath, files[0], load)] + next.0;
      assert Conversion(dirPath, files, load).1 == next.1;
      var m := FirstFailure(dirPath, rest, load);
      assert FirstFailure(dirPath, files, load) == 1 + m;
      if m < |rest| {
        assert files[1 + m] == rest[m];
      }
    }
  }

  /** The `k`-th file written belongs to the `k`-th listed file. */
  lemma {:induction false} ConversionAt(dirPath: string, files: seq<string>, load: string -> Option<Record>, k: nat)
    requires k < |Conversion(dirPath, files, load).0|
    ensures k < |files| && Loads(dirPath, files[k], load)
    ensures Conversion(dirPath, files, load).0[k] == WriteFor(dirPath, files[k], load)
    decreases k
  {
    ConversionHead(dirPath, files, load);
    if k > 0 {
      var rest := files[1..];
      ConversionAt(dirPath, rest, load, k - 1);
      assert rest[k - 1] == files[k];
    }
  }

  /** Something is written only when the first listed file loads, and the
      first write is that file's; a second write means the script got through
      the first file and went on with the rest. */
  lemma ConversionHead(dirPath: string, files: seq<string>, load: string -> Option<Record>)
    requires Conversion(dirPath, files, load).0 != []
    ensures files != [] && Loads(dirPath, files[0], load)
    ensures Conversion(dirPath, files, load).0[0] == WriteFor(dirPath, files[0], load)
    ensures |Conversion(dirPath, files, load).0| > 1 ==>
      && Converts(dirPath, files[0], load)
      && Conversion(dirPath, files, load).0 == [WriteFor(dirPath, files[0], load)] + Conversion(dirPath, files[1..], load).0
  {
  }

  /** The conversion of a non-empty listing, from what happens to its first
      file and the conversion of the rest. */
  lemma ConversionCons(dirPath: string, files: seq<string>, load: string -> Option<Record>)
    requires files != []
    ensures Conversion(dirPath, files, load).0 ==
      (if Loads(dirPath, files[0], load) then [WriteFor(dirPath, files[0], load)] else [])
      + (if Converts(dirPath, files[0], load) then Conversion(dirPath, files[1..], load).0 else [])
    ensures Conversion(dirPath, files, load).1 ==
      (Converts(dirPath, files[0], load) && Conversion(dirPath, files[1..], load).1)
  {
    if !Loads(dirPath, files[0], load) {
    } else if !Converts(dirPath, files[0], load) {
      assert [WriteFor(dirPath, files[0], load)] + [] == [WriteFor(dirPath, files[0], load)];
    }
  }

  /** In a listing of distinct `.json` names each input that is written has
      an output file of its own: the writes go to distinct paths. */
  lemma ConversionPathsDistinct(dirPath: string, files: seq<string>, load: string -> Option<Record>, i: nat, j: nat)
    requires i < j < |files| && j < |Conversion(dirPath, files, load).0|
    requires IsJsonName(files[i]) && IsJsonName(files[j]) && files[i] != files[j]
    ensures Conversion(dirPath, files, load).0[i].path != Conversion(dirPath, files, load).0[j].path
  {
    ConversionAt(dirPath, files, load, i);
    ConversionAt(dirPath, files, load, j);
    OutputPathInjective(dirPath, files[i], files[j]);
  }

  /** One iteration of the script's loop: read the file and, when it parses,
      create its output file and write the record's text to it; `finished`
      says whether the record had every key the script reads. */
  method ConvertFile(dirPath: string, file: string, load: string -> Option<Record>)
    returns (w: Option<Written>, finished: bool)
    ensures w.Some? <==> Loads(dirPath, file, load)
    ensures w.Some? ==> w.value == WriteFor(dirPath, file, load)
    ensures finished <==> Converts(dirPath, file, load)
  {
    var record := load(JoinPath(dirPath, file));
    if record.None? {
      return None, false;
    }
    var text, complete := WriteText(record.value);
    w := Some(Written(OutputPath(dirPath, file), text));
    finished := complete;
  }

  /** The script's main loop: every listed file is read and its text is
      written under the converted directory. A file that cannot be read stops
      the script, after the files before it were written; so does a record
      that lacks a key, after its own file was partly written. */
  method ConvertCorpus(dirPath: string, files: seq<string>, load: string -> Option<Record>)
    returns (written: seq<Written>, completed: bool)
    ensures written == Conversion(dirPath, files, load).0
    ensures completed == Conversion(dirPath, files, load).1
  {
    written := [];
    var i := 0;
    assert files[i..] == files;
    while i < |files|
      invariant 0 <= i <= |files|
      invariant Conversion(dirPath, files, load).0 == written + Conversion(dirPath, files[i..], load).0
      invariant Conversion(dirPath, files, load).1 == Conversion(dirPath, files[i..], load).1
    {
      ghost var rest := files[i..];
      assert rest[0] == files[i] && rest[1..] == files[i + 1..];
      ConversionCons(dirPath, rest, load);
      var w, finished := ConvertFile(dirPath, files[i], load);
      if w.None? {
        completed := false;
        return;
      }
      written := written + [w.value];
      if !finished {
        completed := false;
        return;
      }
      i := i + 1;
    }
    assert files[i..] == [];
    completed := true;
  }
}
