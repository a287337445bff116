/**
 * The README viewer of the command centre (core/documentation.py): the
 * line-based Markdown section extractor, the built-in fallback sections,
 * README parsing and the answer of `display_section`. Reading the file is
 * passed in: `None` stands for a missing or unreadable README.
 */
module Documentation {
  import opened Wrappers
  import opened PyStr

  /** What `_extract_section` answers when it collected no line. */
  const SectionNotFound: string := "Section not found"

  // ------------------------------------------------------------------
  // The extractor's specification
  // ------------------------------------------------------------------

  /** The lines collected once the section is open: heading lines are
      skipped, any other line starting with the delimiter ends the section. */
  function Inside(lines: seq<string>, heading: string, delimiter: string): seq<string> {
    if lines == [] then []
    else if StartsWith(lines[0], heading) then Inside(lines[1..], heading, delimiter)
    else if StartsWith(lines[0], delimiter) then []
    else [lines[0]] + Inside(lines[1..], heading, delimiter)
  }

  /** The lines collected from a list whose section is not yet open. */
  function Before(lines: seq<string>, heading: string, delimiter: string): seq<string> {
    if lines == [] then []
    else if StartsWith(lines[0], heading) then Inside(lines[1..], heading, delimiter)
    else Before(lines[1..], heading, delimiter)
  }

  /** The lines `_extract_section(content, name, delimiter)` collects. */
  function SectionLines(content: string, name: string, delimiter: string): seq<string> {
    Before(Split(content, '\n'), delimiter + name, delimiter)
  }

  /** The text `_extract_section` returns. */
  function SectionText(content: string, name: string, delimiter: string): string {
    var ls := SectionLines(content, name, delimiter);
    if ls == [] then SectionNotFound else Join(ls, '\n')
  }

  // ------------------------------------------------------------------
  // The extractor
  // ------------------------------------------------------------------

  /** `_extract_section`: one pass over the lines with an `in_section` flag. */
  method ExtractSection(content: string, sectionName: string, delimiter: string)
    returns (r: string)
    ensures r == SectionText(content, sectionName, delimiter)
  {
    var lines := Split(content, '\n');
    var heading := delimiter + sectionName;
    var inSection := false;
    var sectionLines: seq<string> := [];
    var i := 0;
    while i < |lines|
      invariant 0 <= i <= |lines|
      invariant !inSection ==> sectionLines == [] && Before(lines[i..], heading, delimiter) == Before(lines, heading, delimiter)
      invariant inSection ==> sectionLines + Inside(lines[i..], heading, delimiter) == Before(lines, heading, delimiter)
    {
      var line := lines[i];
      assert lines[i..][0] == line && lines[i..][1..] == lines[i + 1..];
      if StartsWith(line, heading) {
        inSection := true;
        i := i + 1;
        continue;
      } else if inSection && StartsWith(line, delimiter) {
        assert Inside(lines[i..], heading, delimiter) == [];
        break;
      } else if inSection {
        sectionLines := sectionLines + [line];
      }
      i := i + 1;
    }
    assert sectionLines == Before(lines, heading, delimiter) by {
      if i == |lines| {
        assert lines[i..] == [];
      }
    }
    if sectionLines != [] {
      r := Join(sectionLines, '\n');
    } else {
      r := SectionNotFound;
    }
  }

  // ------------------------------------------------------------------
  // What the extractor returns
  // ------------------------------------------------------------------

  /** Only the lines that are not headings of the section, in order. */
  function DropHeadings(lines: seq<string>, heading: string): (r: seq<string>)
    ensures |r| <= |lines|
  {
    if lines == [] then []
    else (if StartsWith(lines[0], heading) then [] else [lines[0]]) + DropHeadings(lines[1..], heading)
  }

  /** A line ends the section when it starts with the delimiter but is not
      a heading of the section. */
  predicate Ends(line: string, heading: string, delimiter: string) {
    StartsWith(line, delimiter) && !StartsWith(line, heading)
  }

  /** The open section runs up to (not including) its first ending line,
      with its heading lines left out. */
  lemma {:induction false} InsideSpan(lines: seq<string>, heading: string, delimiter: string, e: nat)
    requires e <= |lines|
    requires forall k :: 0 <= k < e ==> !Ends(lines[k], heading, delimiter)
    requires e == |lines| || Ends(lines[e], heading, delimiter)
    ensures Inside(lines, heading, delimiter) == DropHeadings(lines[..e], heading)
  {
    if lines != [] {
      if e == 0 {
      } else {
        InsideSpan(lines[1..], heading, delimiter, e - 1);
        assert lines[..e][0] == lines[0] && lines[..e][1..] == lines[1..][..e - 1];
      }
    }
  }

  /** The extractor's result in terms of positions: when line `h` is the first
      line starting with the heading and line `e` the first later line that
      ends the section (or the end of the text), the collected lines are those
      strictly between `h` and `e`, its repeated headings left out. */
  lemma {:induction false} BeforeSpan(lines: seq<string>, heading: string, delimiter: string, h: nat, e: nat)
    requires h < e <= |lines|
    requires StartsWith(lines[h], heading)
    requires forall k :: 0 <= k < h ==> !StartsWith(lines[k], heading)
    requires forall k :: h < k < e ==> !Ends(lines[k], heading, delimiter)
    requires e == |lines| || Ends(lines[e], heading, delimiter)
    ensures Before(lines, heading, delimiter) == DropHeadings(lines[h + 1..e], heading)
  {
    if h == 0 {
      InsideSpan(lines[1..], heading, delimiter, e - 1);
      assert lines[1..][..e - 1] == lines[1..e];
    } else {
      BeforeSpan(lines[1..], heading, delimiter, h - 1, e - 1);
      assert lines[1..][h..e - 1] == lines[h + 1..e];
    }
  }

  /** Without a heading line nothing is collected. */
  lemma {:induction false} NoHeadingNothing(lines: seq<string>, heading: string, delimiter: string)
    requires forall k :: 0 <= k < |lines| ==> !StartsWith(lines[k], heading)
    ensures Before(lines, heading, delimiter) == []
  {
    if lines != [] {
      NoHeadingNothing(lines[1..], heading, delimiter);
    }
  }

  /** A line starting with a prefix of the heading; in particular every
      heading line starts with the delimiter. */
  lemma HeadingStartsWithDelimiter(line: string, delimiter: string, name: string)
    requires StartsWith(line, delimiter + name)
    ensures StartsWith(line, delimiter)
  {
    assert line[..|delimiter|] == (delimiter + name)[..|delimiter|];
  }

  /** Every collected line is a line of the input and none starts with
      the delimiter. */
  lemma {:induction false} InsideLines(lines: seq<string>, delimiter: string, name: string)
    ensures forall l :: l in Inside(lines, delimiter + name, delimiter) ==> l in lines && !StartsWith(l, delimiter)
  {
    if lines != [] {
      InsideLines(lines[1..], delimiter, name);
      if StartsWith(lines[0], delimiter + name) {
        HeadingStartsWithDelimiter(lines[0], delimiter, name);
      }
    }
  }

  lemma {:induction false} BeforeLines(lines: seq<string>, delimiter: string, name: string)
    ensures forall l :: l in Before(lines, delimiter + name, delimiter) ==> l in lines && !StartsWith(l, delimiter)
  {
    if lines != [] {
      if StartsWith(lines[0], delimiter + name) {
        InsideLines(lines[1..], delimiter, name);
      } else {
        BeforeLines(lines[1..], delimiter, name);
      }
    }
  }

  /** The sentinel answers exactly when no line was collected; otherwise the
      returned text splits back into the collected lines, none of which
      starts with the delimiter. */
  lemma SectionTextLines(content: string, name: string, delimiter: string)
    ensures SectionLines(content, name, delimiter) == [] ==> SectionText(content, name, delimiter) == SectionNotFound
    ensures SectionLines(content, name, delimiter) != [] ==>
      Split(SectionText(content, name, delimiter), '\n') == SectionLines(content, name, delimiter)
    ensures forall l :: l in SectionLines(content, name, delimiter) ==> !StartsWith(l, delimiter)
  {
    var lines := Split(content, '\n');
    var ls := SectionLines(content, name, delimiter);
    BeforeLines(lines, delimiter, name);
    SplitFieldsFree(content, '\n');
    if ls != [] {
      forall k | 0 <= k < |ls|
        ensures '\n' !in ls[k]
      {
        assert ls[k] in lines;
      }
      SplitJoin(ls, '\n');
    }
  }

  /** Lines none of which starts with the delimiter are all collected. */
  lemma {:induction false} InsidePlain(body: seq<string>, delimiter: string, name: string)
    requires forall k :: 0 <= k < |body| ==> !StartsWith(body[k], delimiter)
    ensures Inside(body, delimiter + name, delimiter) == body
  {
    if body != [] {
      if StartsWith(body[0], delimiter + name) {
        HeadingStartsWithDelimiter(body[0], delimiter, name);
      }
      InsidePlain(body[1..], delimiter, name);
    }
  }

  /** The converse of the sentinel rule fails for one body: a section whose
      only line reads `Section not found` yields the sentinel text although a
      line was collected. */
  lemma SentinelIsAlsoABody(name: string)
    ensures Before(["## " + name, SectionNotFound], "## " + name, "## ") == [SectionNotFound]
    ensures Join([SectionNotFound], '\n') == SectionNotFound
  {
    var lines := ["## " + name, SectionNotFound];
    assert ("## " + name)[..|"## " + name|] == "## " + name;
    assert SectionNotFound[0] == 'S';
    assert !StartsWith(SectionNotFound, "## ");
    if StartsWith(SectionNotFound, "## " + name) {
      HeadingStartsWithDelimiter(SectionNotFound, "## ", name);
    }
    assert lines[1..] == [SectionNotFound];
    assert Before(lines, "## " + name, "## ") == Inside([SectionNotFound], "## " + name, "## ");
    assert [SectionNotFound][1..] == [];
    assert Inside([SectionNotFound], "## " + name, "## ")
        == [SectionNotFound] + Inside([], "## " + name, "## ");
  }

  /** The heading is matched by prefix: a line that continues the section's
      name (`## Aboutness` for `About`) opens the section too. */
  lemma PrefixOpens(delimiter: string, name: string, rest: string, body: seq<string>)
    requires forall k :: 0 <= k < |body| ==> !StartsWith(body[k], delimiter)
    ensures Before([delimiter + name + rest] + body, delimiter + name, delimiter) == body
  {
    var heading := delimiter + name;
    var lines := [heading + rest] + body;
    assert (heading + rest)[..|heading|] == heading;
    assert lines[0] == heading + rest && lines[1..] == body;
    InsidePlain(body, delimiter, name);
  }

  /** A second heading of the same section does not end it: the lines on
      both sides of it are collected. */
  lemma {:induction false} RepeatedHeadingSkipped(delimiter: string, name: string, a: seq<string>,
                                                  rest: string, b: seq<string>)
    requires forall k :: 0 <= k < |a| ==> !StartsWith(a[k], delimiter)
    ensures Inside(a + [delimiter + name + rest] + b, delimiter + name, delimiter)
         == a + Inside(b, delimiter + name, delimiter)
  {
    var heading := delimiter + name;
    if a == [] {
      assert (heading + rest)[..|heading|] == heading;
      assert (a + [heading + rest] + b)[1..] == b;
    } else {
      if StartsWith(a[0], heading) {
        HeadingStartsWithDelimiter(a[0], delimiter, name);
      }
      assert (a + [heading + rest] + b)[0] == a[0];
      assert (a + [heading + rest] + b)[1..] == a[1..] + [heading + rest] + b;
      RepeatedHeadingSkipped(delimiter, name, a[1..], rest, b);
    }
  }

  // ------------------------------------------------------------------
  // The sections
  // ------------------------------------------------------------------

  const AboutText: string := "\n            HANDYOSINT COMMAND CENTER\n            ==========================\n\n            Version: 2.4 (16-Bit Vintage Edition)\n            A comprehensive OSINT intelligence platform for security\n            professionals and researchers.\n\n            This tool provides unified access to multiple intelligence\n            gathering modules with enterprise-grade reliability.\n            "

  const FeaturesText: string := "\n            • Multi-platform target scanning\n            • Batch processing capabilities\n            • Real-time intelligence dashboard\n            • Comprehensive logging system\n            • Modular plugin architecture\n            • Vintage 16-bit interface\n            "

  const LicenseText: string := "\n            EDUCATIONAL/RESEARCH USE ONLY\n\n            Always comply with:\n            • Platform Terms of Service\n            • Applicable laws and regulations\n            • Ethical hacking guidelines\n\n            Use only on systems you own or have explicit permission to test.\n            "

  /** `_get_default_sections`: the built-in texts used without a README. */
  function DefaultSections(): (m: map<string, string>)
    ensures m.Keys == {"about", "features", "license"}
  {
    map[
      "about" := AboutText,
      "features" := FeaturesText,
      "license" := LicenseText]
  }

  class IntegratedDocumentation {
    var sections: map<string, string>

    /** `__init__`/`_parse_readme`: without a readable README the default
        sections, otherwise the five sections extracted under `## ` headings. */
    constructor (readme: Option<string>)
      ensures readme.None? ==> sections == DefaultSections()
      ensures readme.Some? ==> sections.Keys == {"about", "features", "usage", "installation", "license"}
      ensures readme.Some? ==>
        sections["about"] == SectionText(readme.value, "About", "## ") &&
        sections["features"] == SectionText(readme.value, "Features", "## ") &&
        sections["usage"] == SectionText(readme.value, "Usage", "## ") &&
        sections["installation"] == SectionText(readme.value, "Installation", "## ") &&
        sections["license"] == SectionText(readme.value, "License", "## ")
    {
      match readme {
        case None =>
          sections := DefaultSections();
        case Some(content) =>
          var about := ExtractSection(content, "About", "## ");
          var features := ExtractSection(content, "Features", "## ");
          var usage := ExtractSection(content, "Usage", "## ");
          var installation := ExtractSection(content, "Installation", "## ");
          var license := ExtractSection(content, "License", "## ");
          sections := map["about" := about, "features" := features, "usage" := usage,
                           "installation" := installation, "license" := license];
      }
    }

    /** `display_section`: whether the section's text is shown (a non-empty
        entry under the lower-cased name), and the returned flag, which is
        whether the lookup found an entry at all. */
    method DisplaySection(sectionName: string) returns (shown: bool, found: bool)
      ensures found <==> Lower(sectionName) in sections
      ensures shown <==> Lower(sectionName) in sections && sections[Lower(sectionName)] != ""
    {
      var key := Lower(sectionName);
      if key in sections {
        shown := sections[key] != "";
        found := true;
      } else {
        shown := false;
        found := false;
      }
    }
  }

  /** An empty section prints the error, yet `display_section` reports it found. */
  method EmptySectionFoundButHidden(doc: IntegratedDocumentation, name: string)
    returns (shown: bool, found: bool)
    requires Lower(name) in doc.sections && doc.sections[Lower(name)] == ""
    ensures found && !shown
  {
    shown, found := doc.DisplaySection(name);
  }
}
