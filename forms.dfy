/**
 * The pure converters of src/modules/portfolio-creator/store.ts that move an
 * item's payload into the editor's form and back: list <-> text converters
 * (one entry per line, comma-separated tags, "label | url" link lines), and
 * `toFormData` / `toPayload` per section key.
 */
module Forms {
  import opened Wrappers
  import opened Text
  import opened Content
  import opened Helpers

  /** The keys whose section holds a single item: `SINGLE_SECTIONS`. */
  const SINGLE_SECTIONS: seq<string> := [PROFILE, ABOUT, SKILLS, CONTACT]

  /** What a list-valued form field may hold: an array, a string, or anything else. */
  datatype ListInput = ListArray(entries: seq<string>) | ListText(text: string) | ListOther

  /** The trimmed, non-empty parts of `text` split on `sep`. */
  function CleanParts(text: string, sep: char): (r: seq<string>)
    ensures forall i :: 0 <= i < |r| ==> r[i] != "" && IsTrimmed(r[i]) && sep !in r[i]
  {
    var parts := Split(text, sep);
    var trimmed := TrimAll(parts);
    forall i | 0 <= i < |trimmed| ensures sep !in trimmed[i] {
      TrimKeepsAbsent(parts[i], sep);
    }
    var r := DropEmpty(trimmed);
    assert forall i :: 0 <= i < |r| ==> r[i] in trimmed;
    r
  }

  /** A character missing from `s` is missing from `Trim(s)` too. */
  lemma TrimKeepsAbsent(s: string, c: char)
    requires c !in s
    ensures c !in Trim(s)
  {
    TrimStartKeeps(s, c);
    TrimEndKeeps(TrimStart(s), c);
  }

  lemma {:induction false} TrimStartKeeps(s: string, c: char)
    requires c !in s
    ensures c !in TrimStart(s)
  {
    if |s| > 0 && IsWhitespace(s[0]) {
      assert forall i :: 0 <= i < |s[1..]| ==> s[1..][i] == s[i + 1];
      TrimStartKeeps(s[1..], c);
    }
  }

  lemma {:induction false} TrimEndKeeps(s: string, c: char)
    requires c !in s
    ensures c !in TrimEnd(s)
  {
    if |s| > 0 && IsWhitespace(s[|s| - 1]) {
      assert forall i :: 0 <= i < |s| - 1 ==> s[..|s| - 1][i] == s[i];
      TrimEndKeeps(s[..|s| - 1], c);
    }
  }

  /** `toLines`: an array keeps its non-empty entries; text gives its trimmed non-empty lines. */
  function ToLines(value: ListInput): (r: seq<string>)
    ensures value.ListText? ==> forall i :: 0 <= i < |r| ==> r[i] != "" && IsTrimmed(r[i]) && '\n' !in r[i]
    ensures value.ListArray? ==> r == DropEmpty(value.entries)
    ensures value.ListArray? ==> forall x :: x in r <==> x in value.entries && x != ""
    ensures value.ListArray? ==> forall i :: 0 <= i < |r| ==> r[i] != "" && r[i] in value.entries
    ensures value.ListOther? ==> r == []
  {
    match value
    case ListArray(entries) => DropEmpty(entries)
    case ListText(text) => CleanParts(text, '\n')
    case ListOther => []
  }

  /** `toTags`: as `toLines`, but text is split on commas. */
  function ToTags(value: ListInput): (r: seq<string>)
    ensures value.ListText? ==> forall i :: 0 <= i < |r| ==> r[i] != "" && IsTrimmed(r[i]) && ',' !in r[i]
    ensures value.ListArray? ==> r == DropEmpty(value.entries)
    ensures value.ListArray? ==> forall x :: x in r <==> x in value.entries && x != ""
    ensures value.ListArray? ==> forall i :: 0 <= i < |r| ==> r[i] != "" && r[i] in value.entries
    ensures value.ListOther? ==> r == []
  {
    match value
    case ListArray(entries) => DropEmpty(entries)
    case ListText(text) => CleanParts(text, ',')
    case ListOther => []
  }

  /** `fromLines`: "" for a missing or empty list, else the entries one per line. */
  function FromLines(value: Option<seq<string>>): (r: string)
    ensures value.None? || value.value == [] ==> r == ""
  {
    if value.Some? && |value.value| > 0 then Join(value.value, "\n") else ""
  }

  /** `fromTags`: "" for a missing or empty list, else the entries separated by ", ". */
  function FromTags(value: Option<seq<string>>): (r: string)
    ensures value.None? || value.value == [] ==> r == ""
  {
    if value.Some? && |value.value| > 0 then Join(value.value, ", ") else ""
  }

  /** Text with nothing in it but whitespace has no lines. */
  lemma EmptyTextNoParts(sep: char)
    ensures CleanParts("", sep) == []
  {
    assert Split("", sep) == [""];
    assert Trim("") == "";
    assert TrimAll([""]) == [""];
  }

  /** Round trip: lines that are non-empty, trimmed and newline-free survive `fromLines` then `toLines`. */
  lemma LinesRoundTrip(xs: seq<string>)
    requires forall i :: 0 <= i < |xs| ==> xs[i] != "" && IsTrimmed(xs[i]) && '\n' !in xs[i]
    ensures ToLines(ListText(FromLines(Some(xs)))) == xs
  {
    if |xs| == 0 {
      EmptyTextNoParts('\n');
    } else {
      SplitJoin(xs, '\n');
      TrimAllKeepsTrimmed(xs);
      DropEmptyKeepsNonEmpty(xs);
    }
  }

  /** Every entry but the first with a space in front: how ", " separates tags once split on ",". */
  function SpaceBefore(xs: seq<string>): (r: seq<string>)
    ensures |r| == |xs|
    ensures forall i :: 0 <= i < |xs| ==> r[i] == " " + xs[i]
  {
    seq(|xs|, i requires 0 <= i < |xs| => " " + xs[i])
  }

  /** Joining with a prefix on the first entry is prefixing the join. */
  lemma JoinPrefixFirst(pre: string, a: string, rest: seq<string>, sep: string)
    ensures Join([pre + a] + rest, sep) == pre + Join([a] + rest, sep)
  {
    if |rest| > 0 {
      assert ([pre + a] + rest)[1..] == rest;
      assert ([a] + rest)[1..] == rest;
    }
  }

  /** Joining with ", " is joining with "," after putting a space before every entry but the first. */
  lemma {:induction false} JoinCommaSpace(xs: seq<string>)
    requires |xs| >= 1
    ensures Join(xs, ", ") == Join([xs[0]] + SpaceBefore(xs[1..]), ",")
  {
    if |xs| >= 2 {
      var tail := xs[1..];
      JoinCommaSpace(tail);
      assert SpaceBefore(tail) == [" " + tail[0]] + SpaceBefore(tail[1..]);
      JoinPrefixFirst(" ", tail[0], SpaceBefore(tail[1..]), ",");
      assert ([xs[0]] + SpaceBefore(tail))[1..] == SpaceBefore(tail);
      assert Join([xs[0]] + SpaceBefore(tail), ",") == xs[0] + "," + Join(SpaceBefore(tail), ",");
      assert xs[0] + "," + (" " + Join(tail, ", ")) == xs[0] + ", " + Join(tail, ", ");
    }
  }

  /** A space in front of a trimmed string is removed again by `Trim`. */
  lemma TrimSpaceBefore(x: string)
    requires IsTrimmed(x)
    ensures Trim(" " + x) == x
  {
    TrimDropsWhitespacePrefix(" ", x);
    TrimmedIsFixed(x);
  }

  /** Round trip: tags that are non-empty, trimmed and comma-free survive `fromTags` then `toTags`. */
  lemma TagsRoundTrip(xs: seq<string>)
    requires forall i :: 0 <= i < |xs| ==> xs[i] != "" && IsTrimmed(xs[i]) && ',' !in xs[i]
    ensures ToTags(ListText(FromTags(Some(xs)))) == xs
  {
    if |xs| == 0 {
      EmptyTextNoParts(',');
    } else {
      var ys := [xs[0]] + SpaceBefore(xs[1..]);
      JoinCommaSpace(xs);
      forall i | 0 <= i < |ys| ensures ',' !in ys[i] {
        if i > 0 {
          assert ys[i] == " " + xs[i];
        }
      }
      SplitJoin(ys, ',');
      forall i | 0 <= i < |ys| ensures Trim(ys[i]) == xs[i] {
        if i == 0 {
          TrimmedIsFixed(xs[0]);
        } else {
          assert ys[i] == " " + xs[i];
          TrimSpaceBefore(xs[i]);
        }
      }
      assert TrimAll(ys) == xs;
      DropEmptyKeepsNonEmpty(xs);
    }
  }

  /** One link line `label | url`: the trimmed first two `|`-separated parts, the url "" when missing. */
  function LinkFromEntry(entry: string): (r: Link)
    ensures LinkTrimmed(r) && '|' !in r.labelText && '|' !in r.url
  {
    var parts := Split(entry, '|');
    TrimKeepsAbsent(parts[0], '|');
    if |parts| >= 2 then TrimKeepsAbsent(parts[1], '|'); Link(Trim(parts[0]), Trim(parts[1]))
    else Link(Trim(parts[0]), "")
  }

  /** `parseLinks`: one link per non-blank line; links with neither label nor url are dropped. */
  function ParseLinks(value: string): (r: seq<Link>)
    ensures forall i :: 0 <= i < |r| ==> LinkNonBlank(r[i]) && LinkTrimmed(r[i])
    ensures forall i :: 0 <= i < |r| ==> '|' !in r[i].labelText && '|' !in r[i].url
  {
    var entries := CleanParts(value, '\n');
    var links := seq(|entries|, i requires 0 <= i < |entries| => LinkFromEntry(entries[i]));
    var r := KeepNonBlank(links);
    assert forall i :: 0 <= i < |r| ==> r[i] in links;
    r
  }

  /** One link as the line `label | url`, trimmed. */
  function FormatLine(l: Link): string {
    Trim(l.labelText + " | " + l.url)
  }

  /** The line of each link, in order. */
  function FormatLines(links: seq<Link>): (r: seq<string>)
    ensures |r| == |links|
    ensures forall i :: 0 <= i < |links| ==> r[i] == FormatLine(links[i])
  {
    seq(|links|, i requires 0 <= i < |links| => FormatLine(links[i]))
  }

  /** `formatLinks`: "" for no links, else one trimmed line per link, the whole text trimmed. */
  function FormatLinks(links: seq<Link>): (r: string)
    ensures links == [] ==> r == ""
    ensures IsTrimmed(r)
  {
    if |links| == 0 then "" else Trim(Join(FormatLines(links), "\n"))
  }

  /** A link that can be written as a line and read back. */
  predicate LinkFormattable(l: Link) {
    LinkTrimmed(l) && LinkNonBlank(l)
    && '|' !in l.labelText && '|' !in l.url && '\n' !in l.labelText && '\n' !in l.url
  }

  /** A space after a trimmed string is removed again by `Trim`. */
  lemma TrimSpaceAfter(x: string)
    requires IsTrimmed(x)
    ensures Trim(x + " ") == x
  {
    if |x| == 0 {
      assert x + " " == " ";
      assert TrimStart(" ") == TrimStart("");
    } else {
      assert (x + " ")[0] == x[0];
      assert TrimStart(x + " ") == x + " ";
      TrimEndDropsWhitespaceSuffix(x, " ");
      assert TrimEnd(x) == x;
    }
  }

  /** Reading back the line of a link with both label and url. */
  lemma LineRoundTripBoth(a: string, b: string)
    requires IsTrimmed(a) && IsTrimmed(b) && a != "" && b != "" && '|' !in a && '|' !in b
    ensures FormatLine(Link(a, b)) != "" && LinkFromEntry(FormatLine(Link(a, b))) == Link(a, b)
  {
    var line := a + " | " + b;
    assert line[0] == a[0] && line[|line| - 1] == b[|b| - 1];
    TrimmedIsFixed(line);
    assert line == (a + " ") + ['|'] + (" " + b);
    SplitAtFirstSeparator(a + " ", " " + b, '|');
    SplitWithoutSeparator(" " + b, '|');
    TrimSpaceAfter(a);
    TrimSpaceBefore(b);
  }

  /** The line of a link with only a url is the bar followed by the url. */
  lemma UrlOnlyLine(b: string)
    requires IsTrimmed(b) && b != ""
    ensures FormatLine(Link("", b)) == "| " + b
  {
    var rest := "| " + b;
    assert rest[0] == '|' && rest[|rest| - 1] == b[|b| - 1];
    assert "" + " | " + b == " " + rest;
    TrimDropsWhitespacePrefix(" ", rest);
    TrimmedIsFixed(rest);
  }

  /** Reading back the line of a link with only a url. */
  lemma LineRoundTripUrlOnly(b: string)
    requires IsTrimmed(b) && b != "" && '|' !in b
    ensures FormatLine(Link("", b)) != "" && LinkFromEntry(FormatLine(Link("", b))) == Link("", b)
  {
    var rest := "| " + b;
    var tail := " " + b;
    UrlOnlyLine(b);
    assert rest == "" + ['|'] + tail;
    assert '|' !in tail;
    SplitAtFirstSeparator("", tail, '|');
    SplitWithoutSeparator(tail, '|');
    assert Split(rest, '|') == ["", tail];
    TrimmedIsFixed("");
    TrimSpaceBefore(b);
    assert LinkFromEntry(rest) == Link(Trim(""), Trim(tail));
  }

  /** Reading back the line of a link with only a label. */
  lemma LineRoundTripLabelOnly(a: string)
    requires IsTrimmed(a) && a != "" && '|' !in a
    ensures FormatLine(Link(a, "")) != "" && LinkFromEntry(FormatLine(Link(a, ""))) == Link(a, "")
  {
    var head := a + " |";
    assert head[0] == a[0] && head[|head| - 1] == '|';
    assert a + " | " + "" == head + " ";
    TrimSpaceAfter(head);
    assert head == (a + " ") + ['|'] + "";
    SplitAtFirstSeparator(a + " ", "", '|');
    assert Split("", '|') == [""];
    TrimSpaceAfter(a);
    assert Trim("") == "";
  }

  /** The line of a formattable link is non-empty, trimmed, newline-free and reads back as the link. */
  lemma LineRoundTrip(l: Link)
    requires LinkFormattable(l)
    ensures var line := FormatLine(l);
      line != "" && IsTrimmed(line) && '\n' !in line && LinkFromEntry(line) == l
  {
    var line := l.labelText + " | " + l.url;
    assert '\n' !in line;
    TrimKeepsAbsent(line, '\n');
    if l.labelText != "" && l.url != "" {
      LineRoundTripBoth(l.labelText, l.url);
    } else if l.labelText == "" {
      LineRoundTripUrlOnly(l.url);
    } else {
      LineRoundTripLabelOnly(l.labelText);
    }
  }

  /** Joining non-empty trimmed entries gives a trimmed text. */
  lemma {:induction false} JoinTrimmed(xs: seq<string>, sep: string)
    requires |xs| >= 1
    requires forall i :: 0 <= i < |xs| ==> xs[i] != "" && IsTrimmed(xs[i])
    ensures var j := Join(xs, sep); |j| > 0 && j[0] == xs[0][0] && j[|j| - 1] == xs[|xs| - 1][|xs[|xs| - 1]| - 1]
    ensures IsTrimmed(Join(xs, sep))
  {
    if |xs| >= 2 {
      JoinTrimmed(xs[1..], sep);
      var rest := Join(xs[1..], sep);
      assert Join(xs, sep) == xs[0] + sep + rest;
      assert xs[1..][|xs[1..]| - 1] == xs[|xs| - 1];
    }
  }

  /** `filter` on links that are all non-blank keeps them all. */
  lemma {:induction false} KeepNonBlankKeepsAll(links: seq<Link>)
    requires forall i :: 0 <= i < |links| ==> LinkNonBlank(links[i])
    ensures KeepNonBlank(links) == links
  {
    if |links| > 0 {
      KeepNonBlankKeepsAll(links[1..]);
    }
  }

  /** The lines of formattable links are non-empty, trimmed, newline-free, and read back as the links. */
  lemma FormatLinesReadBack(links: seq<Link>)
    requires forall i :: 0 <= i < |links| ==> LinkFormattable(links[i])
    ensures var lines := FormatLines(links);
      forall i :: 0 <= i < |lines| ==>
        lines[i] != "" && IsTrimmed(lines[i]) && '\n' !in lines[i] && LinkFromEntry(lines[i]) == links[i]
  {
    var lines := FormatLines(links);
    forall i | 0 <= i < |lines|
      ensures lines[i] != "" && IsTrimmed(lines[i]) && '\n' !in lines[i] && LinkFromEntry(lines[i]) == links[i]
    {
      LineRoundTrip(links[i]);
    }
  }

  /** Formatting non-empty links writes their lines joined by newlines, with nothing trimmed away. */
  lemma FormatLinksIsJoin(links: seq<Link>)
    requires |links| >= 1
    requires forall i :: 0 <= i < |links| ==> LinkFormattable(links[i])
    ensures FormatLinks(links) == Join(FormatLines(links), "\n")
  {
    FormatLinesReadBack(links);
    JoinTrimmed(FormatLines(links), "\n");
    TrimmedIsFixed(Join(FormatLines(links), "\n"));
  }

  /** Round trip: formattable links survive `formatLinks` then `parseLinks`. */
  lemma LinksRoundTrip(links: seq<Link>)
    requires forall i :: 0 <= i < |links| ==> LinkFormattable(links[i])
    ensures ParseLinks(FormatLinks(links)) == links
  {
    if |links| == 0 {
      EmptyTextNoParts('\n');
    } else {
      var lines := FormatLines(links);
      FormatLinesReadBack(links);
      FormatLinksIsJoin(links);
      SplitJoin(lines, '\n');
      TrimAllKeepsTrimmed(lines);
      DropEmptyKeepsNonEmpty(lines);
      assert CleanParts(Join(lines, "\n"), '\n') == lines;
      var parsed := seq(|lines|, i requires 0 <= i < |lines| => LinkFromEntry(lines[i]));
      assert parsed == links;
      KeepNonBlankKeepsAll(links);
    }
  }

  /** `isSingleSection`: the sections the editor treats as holding one item. */
  function IsSingleSection(key: SectionKey): (r: bool)
    ensures r <==> key == PROFILE || key == ABOUT || key == SKILLS || key == CONTACT
  {
    key in SINGLE_SECTIONS
  }

  /** A skill group as the editor holds it: its items are one text, one entry per line. */
  datatype FormGroup = FormGroup(name: string, items: string)

  /**
   * The editor's form: the union of the text fields of every section key.
   * List fields (bullets, tags, links) are held as text; skill groups are
   * held as a list, absent until a skills form is opened.
   */
  datatype FormData = FormData(
    fullName: string, headline: string, location: string, email: string,
    phone: string, website: string, github: string, linkedin: string,
    text: string, groups: Option<seq<FormGroup>>,
    name: string, description: string, link: string, bullets: string, tags: string,
    role: string, company: string, start: string, end: string,
    degree: string, field: string, institution: string, grade: string,
    title: string, issuer: string, year: string, note: string,
    callToActionTitle: string, callToActionText: string, links: string)

  /** A form with every field blank (the `empty*` builders). */
  const EMPTY_FORM: FormData := FormData(
    "", "", "", "", "", "", "", "", "", None, "", "", "", "", "", "", "", "", "",
    "", "", "", "", "", "", "", "", "", "", "")

  /** `emptySkills().groups`. */
  const DEFAULT_FORM_GROUPS: seq<FormGroup> :=
    [FormGroup("Backend", ""), FormGroup("Frontend", ""), FormGroup("Tools", "")]

  /** A stored text field as the form shows it: the value, or "" when it is missing. */
  function Field(value: Option<string>): string {
    if value.Some? then value.value else ""
  }

  /** The form groups of a stored skills payload: names trimmed, items one per line. */
  function FormGroupsOf(groups: seq<SkillGroup>): (r: seq<FormGroup>)
    ensures |r| == |groups|
    ensures forall i :: 0 <= i < |r| ==> IsTrimmed(r[i].name)
  {
    seq(|groups|, i requires 0 <= i < |groups| => FormGroup(Trim(groups[i].name), FromLines(Some(groups[i].items))))
  }

  /** `toFormData`: the form opened on an item of a section with the key. */
  function ToFormData(key: SectionKey, data: ItemData): FormData {
    if key == PROFILE then
      EMPTY_FORM.(fullName := Field(data.fullName), headline := Field(data.headline),
        location := Field(data.location), email := Field(data.email), phone := Field(data.phone),
        website := Field(data.website), github := Field(data.github), linkedin := Field(data.linkedin))
    else if key == ABOUT then
      EMPTY_FORM.(text := Field(data.text))
    else if key == SKILLS then
      EMPTY_FORM.(groups := Some(if data.groups.Some? then FormGroupsOf(data.groups.value) else DEFAULT_FORM_GROUPS))
    else if key == CONTACT then
      EMPTY_FORM.(callToActionTitle := Field(data.callToActionTitle),
        callToActionText := Field(data.callToActionText), email := Field(data.email),
        website := Field(data.website), links := FormatLinks(if data.links.Some? then data.links.value else []))
    else if key == FEATURED_PROJECTS then
      EMPTY_FORM.(name := Field(data.name), description := Field(data.description), link := Field(data.link),
        bullets := FromLines(data.bullets), tags := FromTags(data.tags))
    else if key == EXPERIENCE then
      EMPTY_FORM.(role := Field(data.role), company := Field(data.company), start := Field(data.start),
        end := Field(data.end), location := Field(data.location), bullets := FromLines(data.bullets))
    else if key == EDUCATION then
      EMPTY_FORM.(degree := Field(data.degree), field := Field(data.field),
        institution := Field(data.institution), start := Field(data.start), end := Field(data.end),
        grade := Field(data.grade))
    else
      EMPTY_FORM.(title := Field(data.title), issuer := Field(data.issuer), year := Field(data.year),
        note := Field(data.note))
  }

  /** A stored skill group the form can show and read back: trimmed name; non-empty, trimmed, single-line items. */
  predicate CleanSkillGroup(g: SkillGroup) {
    IsTrimmed(g.name) && forall k :: 0 <= k < |g.items| ==> g.items[k] != "" && IsTrimmed(g.items[k]) && '\n' !in g.items[k]
  }

  /** The stored skill groups of the form's groups: names trimmed, items split into lines. */
  function SkillGroupsOf(groups: seq<FormGroup>): (r: seq<SkillGroup>)
    ensures |r| == |groups|
    ensures forall i :: 0 <= i < |r| ==> CleanSkillGroup(r[i])
  {
    seq(|groups|, i requires 0 <= i < |groups| => SkillGroup(Trim(groups[i].name), ToLines(ListText(groups[i].items))))
  }

  /** Round trip: clean stored groups survive `FormGroupsOf` then `SkillGroupsOf`. */
  lemma SkillGroupsRoundTrip(gs: seq<SkillGroup>)
    requires forall i :: 0 <= i < |gs| ==> CleanSkillGroup(gs[i])
    ensures SkillGroupsOf(FormGroupsOf(gs)) == gs
  {
    var back := SkillGroupsOf(FormGroupsOf(gs));
    forall i | 0 <= i < |gs| ensures back[i] == gs[i] {
      TrimmedIsFixed(gs[i].name);
      TrimIdempotent(gs[i].name);
      LinesRoundTrip(gs[i].items);
    }
  }

  /**
   * `toPayload`: the item payload the form saves for a section with the key.
   * Text fields are trimmed (`normalizeText`); list fields are split.
   */
  function ToPayload(key: SectionKey, form: FormData): ItemData {
    if key == PROFILE then
      EMPTY_DATA.(fullName := Some(Trim(form.fullName)), headline := Some(Trim(form.headline)),
        location := Some(Trim(form.location)), email := Some(Trim(form.email)),
        phone := Some(Trim(form.phone)), website := Some(Trim(form.website)),
        github := Some(Trim(form.github)), linkedin := Some(Trim(form.linkedin)))
    else if key == ABOUT then
      EMPTY_DATA.(text := Some(Trim(form.text)))
    else if key == SKILLS then
      EMPTY_DATA.(groups := Some(SkillGroupsOf(if form.groups.Some? then form.groups.value else DEFAULT_FORM_GROUPS)))
    else if key == CONTACT then
      EMPTY_DATA.(callToActionTitle := Some(Trim(form.callToActionTitle)),
        callToActionText := Some(Trim(form.callToActionText)), email := Some(Trim(form.email)),
        website := Some(Trim(form.website)), links := Some(ParseLinks(form.links)))
    else if key == FEATURED_PROJECTS then
      EMPTY_DATA.(name := Some(Trim(form.name)), description := Some(Trim(form.description)),
        link := Some(Trim(form.link)), bullets := Some(ToLines(ListText(form.bullets))),
        tags := Some(ToTags(ListText(form.tags))))
    else if key == EXPERIENCE then
      EMPTY_DATA.(role := Some(Trim(form.role)), company := Some(Trim(form.company)),
        start := Some(Trim(form.start)), end := Some(Trim(form.end)),
        location := Some(Trim(form.location)), bullets := Some(ToLines(ListText(form.bullets))))
    else if key == EDUCATION then
      EMPTY_DATA.(degree := Some(Trim(form.degree)), field := Some(Trim(form.field)),
        institution := Some(Trim(form.institution)), start := Some(Trim(form.start)),
        end := Some(Trim(form.end)), grade := Some(Trim(form.grade)))
    else
      EMPTY_DATA.(title := Some(Trim(form.title)), issuer := Some(Trim(form.issuer)),
        year := Some(Trim(form.year)), note := Some(Trim(form.note)))
  }

  /** Saving a form, reopening the saved item and saving again stores the same profile. */
  lemma ProfileSurvivesReopen(form: FormData)
    ensures ToPayload(PROFILE, ToFormData(PROFILE, ToPayload(PROFILE, form))) == ToPayload(PROFILE, form)
  {
    TrimIdempotent(form.fullName);
    TrimIdempotent(form.headline);
    TrimIdempotent(form.location);
    TrimIdempotent(form.email);
    TrimIdempotent(form.phone);
    TrimIdempotent(form.website);
    TrimIdempotent(form.github);
    TrimIdempotent(form.linkedin);
  }

  /** The same for the about text. */
  lemma AboutSurvivesReopen(form: FormData)
    ensures ToPayload(ABOUT, ToFormData(ABOUT, ToPayload(ABOUT, form))) == ToPayload(ABOUT, form)
  {
    TrimIdempotent(form.text);
  }

  /** The same for skill groups: names stay trimmed and each group's items read back line by line. */
  lemma SkillsSurviveReopen(form: FormData)
    ensures ToPayload(SKILLS, ToFormData(SKILLS, ToPayload(SKILLS, form))) == ToPayload(SKILLS, form)
  {
    var groups := if form.groups.Some? then form.groups.value else DEFAULT_FORM_GROUPS;
    SkillGroupsRoundTrip(SkillGroupsOf(groups));
  }

  /** The same for the contact block: the links text reads back as the same links. */
  lemma ContactSurvivesReopen(form: FormData)
    ensures ToPayload(CONTACT, ToFormData(CONTACT, ToPayload(CONTACT, form))) == ToPayload(CONTACT, form)
  {
    TrimIdempotent(form.callToActionTitle);
    TrimIdempotent(form.callToActionText);
    TrimIdempotent(form.email);
    TrimIdempotent(form.website);
    var links := ParseLinks(form.links);
    forall i | 0 <= i < |links| ensures LinkFormattable(links[i]) {
      assert '\n' !in links[i].labelText && '\n' !in links[i].url by {
        ParsedLinksNewlineFree(form.links);
      }
    }
    LinksRoundTrip(links);
  }

  /** No parsed link holds a newline: each comes from one line. */
  lemma ParsedLinksNewlineFree(value: string)
    ensures var r := ParseLinks(value);
      forall i :: 0 <= i < |r| ==> '\n' !in r[i].labelText && '\n' !in r[i].url
  {
    var entries := CleanParts(value, '\n');
    var links := seq(|entries|, i requires 0 <= i < |entries| => LinkFromEntry(entries[i]));
    forall i | 0 <= i < |links| ensures '\n' !in links[i].labelText && '\n' !in links[i].url {
      EntryLinkNewlineFree(entries[i]);
    }
    var r := KeepNonBlank(links);
    assert forall i :: 0 <= i < |r| ==> r[i] in links;
  }

  /** A line without a newline yields a link without one. */
  lemma EntryLinkNewlineFree(entry: string)
    requires '\n' !in entry
    ensures '\n' !in LinkFromEntry(entry).labelText && '\n' !in LinkFromEntry(entry).url
  {
    var parts := Split(entry, '|');
    SplitKeeps(entry, '|', '\n');
    TrimKeepsAbsent(parts[0], '\n');
    if |parts| >= 2 {
      TrimKeepsAbsent(parts[1], '\n');
    }
  }

  /** A character missing from `s` is missing from every part of its split. */
  lemma {:induction false} SplitKeeps(s: string, sep: char, c: char)
    requires c !in s
    ensures forall i :: 0 <= i < |Split(s, sep)| ==> c !in Split(s, sep)[i]
  {
    if |s| > 0 {
      assert forall i :: 0 <= i < |s[1..]| ==> s[1..][i] == s[i + 1];
      SplitKeeps(s[1..], sep, c);
    }
  }

  /** The same for a featured project: bullets and tags read back entry by entry. */
  lemma FeaturedProjectSurvivesReopen(form: FormData)
    ensures ToPayload(FEATURED_PROJECTS, ToFormData(FEATURED_PROJECTS, ToPayload(FEATURED_PROJECTS, form)))
      == ToPayload(FEATURED_PROJECTS, form)
  {
    TrimIdempotent(form.name);
    TrimIdempotent(form.description);
    TrimIdempotent(form.link);
    LinesRoundTrip(ToLines(ListText(form.bullets)));
    TagsRoundTrip(ToTags(ListText(form.tags)));
  }

  /** The same for an experience entry. */
  lemma ExperienceSurvivesReopen(form: FormData)
    ensures ToPayload(EXPERIENCE, ToFormData(EXPERIENCE, ToPayload(EXPERIENCE, form))) == ToPayload(EXPERIENCE, form)
  {
    TrimIdempotent(form.role);
    TrimIdempotent(form.company);
    TrimIdempotent(form.start);
    TrimIdempotent(form.end);
    TrimIdempotent(form.location);
    LinesRoundTrip(ToLines(ListText(form.bullets)));
  }

  /** The same for an education entry. */
  lemma EducationSurvivesReopen(form: FormData)
    ensures ToPayload(EDUCATION, ToFormData(EDUCATION, ToPayload(EDUCATION, form))) == ToPayload(EDUCATION, form)
  {
    TrimIdempotent(form.degree);
    TrimIdempotent(form.field);
    TrimIdempotent(form.institution);
    TrimIdempotent(form.start);
    TrimIdempotent(form.end);
    TrimIdempotent(form.grade);
  }

  /** The same for a certification or an achievement. */
  lemma CredentialSurvivesReopen(key: SectionKey, form: FormData)
    requires key == CERTIFICATIONS || key == ACHIEVEMENTS
    ensures ToPayload(key, ToFormData(key, ToPayload(key, form))) == ToPayload(key, form)
  {
    TrimIdempotent(form.title);
    TrimIdempotent(form.issuer);
    TrimIdempotent(form.year);
    TrimIdempotent(form.note);
  }

  /**
   * Saving is stable: whatever the form holds, saving it, reopening the saved
   * payload in the editor and saving again stores the same payload.
   */
  lemma PayloadSurvivesReopen(key: SectionKey, form: FormData)
    ensures ToPayload(key, ToFormData(key, ToPayload(key, form))) == ToPayload(key, form)
  {
    if key == PROFILE {
      ProfileSurvivesReopen(form);
    } else if key == ABOUT {
      AboutSurvivesReopen(form);
    } else if key == SKILLS {
      SkillsSurviveReopen(form);
    } else if key == CONTACT {
      ContactSurvivesReopen(form);
    } else if key == FEATURED_PROJECTS {
      FeaturedProjectSurvivesReopen(form);
    } else if key == EXPERIENCE {
      ExperienceSurvivesReopen(form);
    } else if key == EDUCATION {
      EducationSurvivesReopen(form);
    } else {
      CredentialSurvivesReopen(key, form);
    }
  }
}
