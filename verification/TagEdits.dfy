/** The tag edits a session stages: what they make of a line, and which of them a commit stores as shown. */
module TagEdits {
  import opened Values
  import Text
  import opened TagSessions

  // ---------------------------------------------------------------- tags of a line

  /** `line.split(",")`. */
  function SplitCommas(line: string): (parts: seq<string>)
    ensures parts != []
  {
    if line == "" then [""]
    else
      var rest := SplitCommas(line[1..]);
      if line[0] == ',' then [""] + rest else [[line[0]] + rest[0]] + rest[1..]
  }

  /** The parts stripped, blank ones dropped. */
  function Stripped(parts: seq<string>): (tags: seq<string>)
    ensures forall i | 0 <= i < |tags| :: CleanLine(tags[i])
  {
    if parts == [] then []
    else
      Text.TrimIdempotent(parts[0]);
      (if Text.Trim(parts[0]) != "" then [Text.Trim(parts[0])] else []) + Stripped(parts[1..])
  }

  function ParseTags(line: string): seq<string> {
    Stripped(SplitCommas(line))
  }

  function JoinTags(tags: seq<string>): string {
    if tags == [] then "" else if |tags| == 1 then tags[0] else tags[0] + ", " + JoinTags(tags[1..])
  }

  /** Joined tags are a clean line, except that no tags make an empty one. */
  lemma {:induction false} JoinedTags(tags: seq<string>)
    requires CleanLines(tags)
    ensures tags == [] ==> JoinTags(tags) == ""
    ensures tags != [] ==> CleanLine(JoinTags(tags))
    ensures tags != [] ==> JoinTags(tags)[0] == tags[0][0]
  {
    if tags != [] {
      assert CleanLine(tags[0]);
      CleanEnds(tags[0]);
      if |tags| > 1 {
        JoinedTags(tags[1..]);
        CleanEnds(JoinTags(tags[1..]));
        var line := JoinTags(tags);
        assert line[|line| - 1] == JoinTags(tags[1..])[|JoinTags(tags[1..])| - 1];
        Text.AlreadyTrimmed(line);
      }
    }
  }

  lemma CleanEnds(line: string)
    requires CleanLine(line)
    ensures !Text.IsSpace(line[0]) && !Text.IsSpace(line[|line| - 1])
  {
    assert Text.Trim(line) == line;
  }

  /** The parts with a comma between each two. */
  ghost function CommaJoined(parts: seq<string>): string {
    if parts == [] then "" else if |parts| == 1 then parts[0] else parts[0] + "," + CommaJoined(parts[1..])
  }

  ghost predicate NoCommas(tags: seq<string>) {
    forall i | 0 <= i < |tags| :: ',' !in tags[i]
  }

  /** A line falls apart at its commas and nowhere else. */
  lemma {:induction false} SplitAtTheCommas(line: string)
    ensures CommaJoined(SplitCommas(line)) == line && NoCommas(SplitCommas(line))
  {
    if line != "" {
      var rest := SplitCommas(line[1..]);
      SplitAtTheCommas(line[1..]);
      assert line == [line[0]] + line[1..];
      var parts := SplitCommas(line);
      if line[0] == ',' {
        assert parts[1..] == rest;
      } else {
        assert parts[1..] == rest[1..];
        if |rest| > 1 {
          assert [line[0]] + (rest[0] + "," + CommaJoined(rest[1..])) == parts[0] + "," + CommaJoined(parts[1..]);
        }
        forall i | 0 <= i < |parts| ensures ',' !in parts[i] {
          assert ',' !in rest[i];
        }
      }
    }
  }

  lemma {:induction false} SplitFirst(part: string, rest: string)
    requires ',' !in part
    ensures SplitCommas(part + "," + rest) == [part] + SplitCommas(rest)
  {
    var line := part + "," + rest;
    if part == "" {
      assert line[1..] == rest;
    } else {
      SplitFirst(part[1..], rest);
      assert line[1..] == part[1..] + "," + rest && line[0] == part[0];
      assert [part[0]] + part[1..] == part;
    }
  }

  lemma {:induction false} SplitWhole(part: string)
    requires ',' !in part
    ensures SplitCommas(part) == [part]
  {
    if part != "" {
      SplitWhole(part[1..]);
      assert [part[0]] + part[1..] == part;
    }
  }

  lemma {:induction false} SpaceBefore(line: string)
    ensures SplitCommas(" " + line) == [" " + SplitCommas(line)[0]] + SplitCommas(line)[1..]
  {
    assert (" " + line)[1..] == line;
  }

  lemma StrippedSpace(part: string, rest: seq<string>)
    ensures Stripped([" " + part] + rest) == Stripped([part] + rest)
  {
    assert (" " + part)[1..] == part;
    assert ([" " + part] + rest)[1..] == rest && ([part] + rest)[1..] == rest;
  }

  lemma StrippedFirst(part: string, rest: seq<string>)
    requires CleanLine(part)
    ensures Stripped([part] + rest) == [part] + Stripped(rest)
  {
    assert ([part] + rest)[1..] == rest;
  }

  /** What is joined is read back: tags survive being a line. */
  lemma {:induction false} ParseUndoesJoin(tags: seq<string>)
    requires CleanLines(tags) && NoCommas(tags)
    ensures ParseTags(JoinTags(tags)) == tags
  {
    hide CleanLine, Stripped;
    if |tags| == 0 {
      assert ParseTags("") == [] by { BlankLineHasNoTags(); }
    } else if |tags| == 1 {
      SplitWhole(tags[0]);
      StrippedFirst(tags[0], []);
      assert Stripped([]) == [] by { NothingStripped(); }
      assert [tags[0]] == [tags[0]] + [] == tags;
    } else {
      var rest := JoinTags(tags[1..]);
      ParseUndoesJoin(tags[1..]);
      SplitFirst(tags[0], " " + rest);
      assert tags[0] + "," + (" " + rest) == tags[0] + ", " + rest;
      SpaceBefore(rest);
      StrippedSpace(SplitCommas(rest)[0], SplitCommas(rest)[1..]);
      StrippedFirst(tags[0], SplitCommas(" " + rest));
      assert SplitCommas(rest) == [SplitCommas(rest)[0]] + SplitCommas(rest)[1..];
      assert [tags[0]] + tags[1..] == tags;
    }
  }

  lemma NothingStripped()
    ensures Stripped([]) == []
  {
  }

  lemma BlankLineHasNoTags()
    ensures ParseTags("") == []
  {
    assert [""][1..] == [] && Text.Trim("") == "";
  }

  lemma {:induction false} StrippedHasNoCommas(parts: seq<string>)
    requires NoCommas(parts)
    ensures NoCommas(Stripped(parts)) && CleanLines(Stripped(parts))
  {
    if parts != [] {
      StrippedHasNoCommas(parts[1..]);
      var before, after := Text.TrimMeans(parts[0]);
      assert forall i | 0 <= i < |Text.Trim(parts[0])| :: Text.Trim(parts[0])[i] == parts[0][|before| + i];
    }
  }

  /** The tags of a line are stripped, not blank and without commas. */
  lemma TagsOfALine(line: string)
    ensures CleanLines(ParseTags(line)) && NoCommas(ParseTags(line))
  {
    SplitAtTheCommas(line);
    StrippedHasNoCommas(SplitCommas(line));
  }

  // ---------------------------------------------------------------- the edits

  /** Adding, removing and renaming; pruning removes the rare tags. Names compare in lower case. */
  datatype TagEdit =
    | Add(tags: seq<string>, atStart: bool)
    | Remove(wanted: set<string>)
    | Rename(wanted: set<string>, to: string)

  /** What the parser of staged operations guarantees: the tags it names are stripped and not blank. */
  predicate Parsed(e: TagEdit) {
    match e
    case Add(tags, _) => tags != [] && CleanLines(tags)
    case Remove(_) => true
    case Rename(_, to) => CleanLine(to)
  }

  function Lowered(tags: seq<string>): set<string> {
    set i | 0 <= i < |tags| :: Text.Lower(tags[i])
  }

  function WithoutTags(tags: seq<string>, unwanted: set<string>): (kept: seq<string>)
    ensures CleanLines(tags) ==> CleanLines(kept)
    ensures kept == [] <==> Lowered(tags) <= unwanted
  {
    if tags == [] then []
    else
      assert Text.Lower(tags[0]) in Lowered(tags);
      assert Lowered(tags) == {Text.Lower(tags[0])} + Lowered(tags[1..]) by { LoweredSplits(tags); }
      (if Text.Lower(tags[0]) in unwanted then [] else [tags[0]]) + WithoutTags(tags[1..], unwanted)
  }

  lemma LoweredSplits(tags: seq<string>)
    requires tags != []
    ensures Lowered(tags) == {Text.Lower(tags[0])} + Lowered(tags[1..])
  {
    hide Text.Lower;
    forall t | t in Lowered(tags) ensures t in {Text.Lower(tags[0])} + Lowered(tags[1..]) {
      var i :| 0 <= i < |tags| && Text.Lower(tags[i]) == t;
      assert i > 0 ==> tags[1..][i - 1] == tags[i];
    }
    forall t | t in Lowered(tags[1..]) ensures t in Lowered(tags) {
      var i :| 0 <= i < |tags[1..]| && Text.Lower(tags[1..][i]) == t;
      assert tags[i + 1] == tags[1..][i];
    }
  }

  /** The first wanted tag takes the new name, unless the line has it already; the others go. */
  function Renamed(tags: seq<string>, wanted: set<string>, to: string, seen: bool): (renamed: seq<string>)
    ensures CleanLines(tags) && CleanLine(to) ==> CleanLines(renamed)
  {
    if tags == [] then []
    else if Text.Lower(tags[0]) in wanted then
      (if seen then [] else [to]) + Renamed(tags[1..], wanted, to, true)
    else [tags[0]] + Renamed(tags[1..], wanted, to, seen)
  }

  function EditTags(e: TagEdit, tags: seq<string>): seq<string> {
    match e
    case Add(added, atStart) =>
      var missing := WithoutTags(added, Lowered(tags));
      if atStart then missing + tags else tags + missing
    case Remove(wanted) => WithoutTags(tags, wanted)
    case Rename(wanted, to) => Renamed(tags, wanted, to, Text.Lower(to) in Lowered(tags))
  }

  function EditLine(e: TagEdit, line: string): string {
    JoinTags(EditTags(e, ParseTags(line)))
  }

  /** Adding leaves the tags of the line as they are and puts the same new ones in front or behind. */
  lemma AddedInFrontOrBehind(added: seq<string>, tags: seq<string>) returns (missing: seq<string>)
    ensures EditTags(Add(added, true), tags) == missing + tags && EditTags(Add(added, false), tags) == tags + missing
    ensures forall t | t in missing :: t in added && Text.Lower(t) !in Lowered(tags)
    ensures forall t | t in added && Text.Lower(t) !in Lowered(tags) :: t in missing
  {
    missing := WithoutTags(added, Lowered(tags));
    KeptTags(added, Lowered(tags));
  }

  /** Just the tags that are not named stay. */
  lemma {:induction false} KeptTags(tags: seq<string>, unwanted: set<string>)
    ensures forall t :: t in WithoutTags(tags, unwanted) <==> t in tags && Text.Lower(t) !in unwanted
  {
    if tags != [] {
      KeptTags(tags[1..], unwanted);
      assert tags == [tags[0]] + tags[1..];
    }
  }

  lemma {:induction false} RenamedTags(tags: seq<string>, wanted: set<string>, to: string, seen: bool)
    ensures forall t | t in Renamed(tags, wanted, to, seen) :: t in tags || t == to
  {
    if tags != [] {
      RenamedTags(tags[1..], wanted, to, true);
      RenamedTags(tags[1..], wanted, to, seen);
      assert tags == [tags[0]] + tags[1..];
    }
  }

  /** The tags an edit names are written without commas. */
  predicate CommaFree(e: TagEdit) {
    match e
    case Add(tags, _) => forall i | 0 <= i < |tags| :: ',' !in tags[i]
    case Remove(_) => true
    case Rename(_, to) => ',' !in to
  }

  /**
   * The next edit reads just what this one made of the tags if and only if none of them has a comma,
   * as is the case when the edit names none with a comma.
   */
  lemma EditsAreEditsOfTagsIff(e: TagEdit, line: string)
    requires Parsed(e)
    ensures var edited := EditTags(e, ParseTags(line));
            && (ParseTags(EditLine(e, line)) == edited <==> forall i | 0 <= i < |edited| :: ',' !in edited[i])
            && (CommaFree(e) ==> ParseTags(EditLine(e, line)) == edited)
  {
    hide ParseTags, JoinTags, CleanLine, WithoutTags, Renamed, Text.Lower, Lowered;
    var tags := ParseTags(line);
    TagsOfALine(line);
    var edited := EditTags(e, tags);
    assert CleanLines(edited);
    match e {
      case Add(added, _) => KeptTags(added, Lowered(tags));
      case Remove(wanted) => KeptTags(tags, wanted);
      case Rename(wanted, to) => RenamedTags(tags, wanted, to, Text.Lower(to) in Lowered(tags));
    }
    forall i | 0 <= i < |edited| && CommaFree(e) ensures ',' !in edited[i] {
      assert edited[i] in edited;
    }
    TagsOfALine(EditLine(e, line));
    if NoCommas(edited) {
      ParseUndoesJoin(edited);
    }
  }

  /** Whatever the edit: the line comes out clean, or empty when it is left without a tag. */
  lemma EditedLine(e: TagEdit, line: string)
    requires Parsed(e)
    ensures EditLine(e, line) == "" || CleanLine(EditLine(e, line))
    ensures EditLine(e, line) == "" <==> EditTags(e, ParseTags(line)) == []
  {
    hide JoinTags, WithoutTags, Renamed, CleanLine;
    JoinedTags(EditTags(e, ParseTags(line)));
    assert CleanLine(EditLine(e, line)) ==> EditLine(e, line) != "" by { NotBlank(EditLine(e, line)); }
  }

  lemma NotBlank(line: string)
    ensures CleanLine(line) ==> line != ""
  {
  }

  lemma LoweredEmpty(tags: seq<string>)
    ensures Lowered(tags) == {} <==> tags == []
  {
    if tags != [] {
      assert Text.Lower(tags[0]) in Lowered(tags);
    }
  }

  /** The tags of a renamed line, up to case. */
  lemma {:induction false} RenamedNames(tags: seq<string>, wanted: set<string>, to: string, seen: bool)
    ensures Lowered(Renamed(tags, wanted, to, seen))
         == (Lowered(tags) - wanted) + if seen || Lowered(tags) !! wanted then {} else {Text.Lower(to)}
  {
    hide Text.Lower, Lowered;
    LoweredEmpty([]);
    if tags != [] {
      var renamed := Renamed(tags, wanted, to, seen);
      LoweredSplits(tags);
      if Text.Lower(tags[0]) !in wanted {
        RenamedNames(tags[1..], wanted, to, seen);
        LoweredSplits(renamed);
        assert renamed[1..] == Renamed(tags[1..], wanted, to, seen);
      } else {
        RenamedNames(tags[1..], wanted, to, true);
        assert Text.Lower(tags[0]) in Lowered(tags);
        if !seen {
          LoweredSplits(renamed);
          assert renamed[1..] == Renamed(tags[1..], wanted, to, true);
        } else {
          assert renamed == Renamed(tags[1..], wanted, to, true);
        }
      }
    }
  }

  /**
   * A line with a tag to rename has the new name afterwards, except when it had that name already and
   * it is itself one of the names to be replaced: a tag renamed to another case of itself is lost.
   */
  lemma RenameGivesTheNameIff(line: string, wanted: set<string>, to: string)
    requires !(Lowered(ParseTags(line)) !! wanted)
    ensures var before, after := Lowered(ParseTags(line)), Lowered(EditTags(Rename(wanted, to), ParseTags(line)));
            Text.Lower(to) in after <==> !(Text.Lower(to) in before && Text.Lower(to) in wanted)
  {
    hide Text.Lower, Lowered, ParseTags, Renamed;
    var tags := ParseTags(line);
    RenamedNames(tags, wanted, to, Text.Lower(to) in Lowered(tags));
  }

  /** Which edits leave a line without a tag, so empty. */
  lemma EmptiedLineIff(e: TagEdit, line: string)
    requires Parsed(e)
    ensures EditLine(e, line) == ""
       <==> match e
            case Add(_, _) => false
            case Remove(wanted) => Lowered(ParseTags(line)) <= wanted
            case Rename(wanted, to) =>
              Lowered(ParseTags(line)) <= wanted
              && (ParseTags(line) == [] || Text.Lower(to) in Lowered(ParseTags(line)))
  {
    hide JoinTags, CleanLine, ParseTags, Renamed, Text.Lower, Lowered, EditLine;
    EditedLine(e, line);
    var tags := ParseTags(line);
    LoweredEmpty(EditTags(e, tags));
    LoweredEmpty(tags);
    match e
    case Add(added, _) => AddedTagsStay(added, tags);
    case Remove(_) =>
    case Rename(wanted, to) =>
      RenamedNames(tags, wanted, to, Text.Lower(to) in Lowered(tags));
      NothingLeftIff(Lowered(tags), wanted, Text.Lower(to));
  }

  lemma NothingLeftIff(names: set<string>, wanted: set<string>, to: string)
    ensures (names - wanted) + (if to in names || names !! wanted then {} else {to}) == {}
       <==> names <= wanted && (names == {} || to in names)
  {
    if names <= wanted && names !! wanted {
      assert names == names * wanted == {};
    }
    var left := (names - wanted) + if to in names || names !! wanted then {} else {to};
    if to !in names && !(names !! wanted) {
      assert to in left;
    }
    if left == {} {
      forall n | n in names ensures n in wanted {
        assert n !in left;
      }
    }
  }

  lemma AddedTagsStay(added: seq<string>, tags: seq<string>)
    requires added != []
    ensures tags == [] ==> WithoutTags(added, Lowered(tags)) != []
  {
    LoweredEmpty(added);
    LoweredEmpty(tags);
  }

  // ---------------------------------------------------------------- an edit of the whole set

  /** A line of a caption: not blank, or emptied by an edit. */
  predicate CleanOrEmpty(lines: Lines) {
    forall i | 0 <= i < |lines| :: lines[i] == "" || CleanLine(lines[i])
  }

  /** The edit at work on one image: the lines in scope, or a fresh line at the top when there is none. */
  function EditLines(e: TagEdit, lines: Lines, inScope: nat -> bool, mayInsert: bool): (edited: Lines)
    requires Parsed(e)
  {
    if e.Add? && mayInsert && (forall i: nat | i < |lines| :: !inScope(i)) then [JoinTags(e.tags)] + lines
    else seq(|lines|, i requires 0 <= i < |lines| => if inScope(i) then EditLine(e, lines[i]) else lines[i])
  }

  /** Lines out of scope stay; a line more there is just for an addition that has no line in scope. */
  lemma OnlyLinesInScopeChange(e: TagEdit, lines: Lines, inScope: nat -> bool, mayInsert: bool)
    requires Parsed(e)
    ensures var edited := EditLines(e, lines, inScope, mayInsert);
            && (|edited| != |lines| <==> e.Add? && mayInsert && forall i: nat | i < |lines| :: !inScope(i))
            && (|edited| != |lines| ==> edited[0] == JoinTags(e.tags) && edited[1..] == lines)
            && (|edited| == |lines| ==> forall i: nat | i < |lines| ::
                  edited[i] == if inScope(i) then EditLine(e, lines[i]) else lines[i])
  {
    hide EditLine, JoinTags;
  }

  /** An image the edit does not select keeps its lines; one it selects is edited. */
  lemma OnlySelectedImagesChange(staged: Staged, captions: Captions, k: string)
    requires k in captions && Parsed(staged.edit(captions))
    ensures EditOp(staged).Rewrite?
    ensures EditOp(staged).edit(captions, k)
         == if staged.selects(captions, k)
            then EditLines(staged.edit(captions), captions[k], staged.inScope(captions[k]), staged.mayInsert)
            else captions[k]
  {
    hide EditLines;
  }

  lemma EditedLinesAreCleanOrEmpty(e: TagEdit, lines: Lines, inScope: nat -> bool, mayInsert: bool)
    requires Parsed(e) && CleanOrEmpty(lines)
    ensures CleanOrEmpty(EditLines(e, lines, inScope, mayInsert))
  {
    hide JoinTags, CleanLine, EditLine;
    var edited := EditLines(e, lines, inScope, mayInsert);
    if e.Add? {
      JoinedTags(e.tags);
    }
    forall i | 0 <= i < |edited| ensures edited[i] == "" || CleanLine(edited[i]) {
      if i < |lines| {
        EditedLine(e, lines[i]);
      }
    }
  }

  /** How a staged edit picks images and lines; pruning picks its tags from the frequencies. */
  datatype Staged = Staged(
    edit: Captions -> TagEdit,
    selects: (Captions, string) -> bool,
    inScope: Lines -> (nat -> bool),
    mayInsert: bool
  )

  /** The staged edit as an operation of a session. */
  function EditOp(staged: Staged): Op {
    Rewrite((captions: Captions, k: string) =>
      if k in captions && staged.selects(captions, k) && Parsed(staged.edit(captions)) then
        EditLines(staged.edit(captions), captions[k], staged.inScope(captions[k]), staged.mayInsert)
      else if k in captions then captions[k] else [])
  }

  /** Quarantines and tag edits, which is all a session can stage. */
  ghost predicate TagOp(op: Op) {
    op.Quarantine? || exists staged :: op == EditOp(staged)
  }

  ghost predicate AllCleanOrEmpty(captions: Captions) {
    forall k | k in captions :: CleanOrEmpty(captions[k])
  }

  lemma TagOpKeepsCleanOrEmpty(captions: Captions, op: Op)
    requires AllCleanOrEmpty(captions) && TagOp(op) && Apply(captions, op).Some?
    ensures AllCleanOrEmpty(Apply(captions, op).value)
  {
    hide CleanOrEmpty, EditLines;
    if !op.Quarantine? {
      var staged :| op == EditOp(staged);
      forall k | k in captions ensures CleanOrEmpty(op.edit(captions, k)) {
        if Parsed(staged.edit(captions)) {
          EditedLinesAreCleanOrEmpty(
            staged.edit(captions), captions[k], staged.inScope(captions[k]), staged.mayInsert);
        }
      }
    }
  }

  lemma {:induction false} ReplayKeepsCleanOrEmpty(base: Captions, ops: seq<Op>)
    requires AllCleanOrEmpty(base) && (forall op | op in ops :: TagOp(op)) && Replay(base, ops).Some?
    ensures AllCleanOrEmpty(Replay(base, ops).value)
  {
    hide Apply, TagOp, AllCleanOrEmpty;
    if ops != [] {
      ReplayKeepsCleanOrEmpty(base, ops[..|ops| - 1]);
      TagOpKeepsCleanOrEmpty(Replay(base, ops[..|ops| - 1]).value, ops[|ops| - 1]);
    }
  }

  /**
   * Any stack of tag edits and quarantines over a stored folder: the commit stores what was shown if
   * and only if no line shown is empty, that is, no edit took the last tag of a line.
   */
  lemma TagEditsAreStoredIffNoLineIsEmptied(base: Captions, ops: seq<Op>)
    requires AllClean(base) && (forall op | op in ops :: TagOp(op)) && Replay(base, ops).Some?
    ensures var shown := Replay(base, ops).value;
            Committed(base, shown) == shown <==> forall k | k in shown :: "" !in shown[k]
  {
    hide Replay, TagOp, CleanLine, Committed;
    var shown := Replay(base, ops).value;
    ReplayNeverAddsImages(base, ops);
    CommitStoresWhatWasShownIff(base, shown);
    ReplayKeepsCleanOrEmpty(base, ops);
    forall k | k in shown ensures "" !in shown[k] <==> CleanLines(shown[k]) {
      NotBlank("");
    }
  }

  lemma OneTag(tag: string)
    requires CleanLine(tag) && ',' !in tag
    ensures ParseTags(tag) == [tag]
  {
    SplitWhole(tag);
    assert [tag][1..] == [] && Stripped([]) == [] && Text.Trim(tag) == tag;
    assert Stripped([tag]) == [tag] + Stripped([tag][1..]);
  }

  /** Removing one tag, wherever it stands. */
  function RemoveEverywhere(tag: string): Staged {
    Staged(_ => Remove({Text.Lower(tag)}), (_, _) => true, _ => (_ => true), true)
  }

  lemma RemovedFromItsLine(captions: Captions, key: string, tag: string)
    requires CleanLine(tag) && ',' !in tag && key in captions && captions[key] == [tag]
    ensures EditOp(RemoveEverywhere(tag)).Rewrite? && EditOp(RemoveEverywhere(tag)).edit(captions, key) == [""]
  {
    OneTag(tag);
    hide ParseTags, CleanLine, Text.Lower;
    LoweredSplits([tag]);
    EmptiedLineIff(Remove({Text.Lower(tag)}), tag);
    assert EditLines(Remove({Text.Lower(tag)}), [tag], _ => true, true) == [""];
  }

  lemma OneRewriteReplayed(key: string, before: Lines, after: Lines, op: Op)
    requires op.Rewrite? && op.edit(map[key := before], key) == after
    ensures Replay(map[key := before], [op]) == Some(map[key := after])
  {
    var base: Captions := map[key := before];
    assert [op][..0] == [];
    assert Replay(base, [op]) == Apply(base, op);
    assert Apply(base, op).value == map[key := after];
  }

  lemma EmptyLineIsDropped()
    ensures Clean([""]) == []
  {
    assert Text.Trim("") == "" && [""][..0] == [];
  }

  /** The last tag of a line removed: the commit drops the line that the editor shows as empty. */
  lemma RemovingTheLastTagDropsTheLine(key: string, tag: string)
    requires CleanLine(tag) && ',' !in tag
    ensures var op := EditOp(RemoveEverywhere(tag));
            var base, shown: Captions := map[key := [tag]], map[key := [""]];
            && TagOp(op) && AllClean(base) && Replay(base, [op]) == Some(shown)
            && Committed(base, shown) == map[key := []]
  {
    hide CleanLine, EditOp, RemoveEverywhere, Replay, Clean;
    var op := EditOp(RemoveEverywhere(tag));
    var base: Captions := map[key := [tag]];
    RemovedFromItsLine(base, key, tag);
    OneRewriteReplayed(key, [tag], [""], op);
    EmptyLineIsDropped();
    assert CleanLines(base[key]);
    NotBlank(tag);
  }
}
