/** `LoopJsonStorage`: writes a loop to disk as a small, hand-built JSON
    document. The text is built by `BuildJson`; how numbers are rendered
    (`Integer.toString`, `Double.toString`) is left to the two functions
    `showInt` and `showReal` every member takes, and the file write itself
    is not modelled: `SaveLoop` returns the text it would write. */
module JsonStorage {
  import opened JavaSemantics
  import opened LoopNotes
  import opened Loops

  /** The opening of the document. */
  const Opening: string := "{\n"

  function MeasuresLine(measures: Int32, showInt: Int32 -> string): string {
    "  \"measures\": " + showInt(measures) + ",\n"
  }

  function TempoLine(tempoBpm: real, showReal: real -> string): string {
    "  \"tempoBPM\": " + showReal(tempoBpm) + ",\n"
  }

  /** The line that opens the notes array. */
  const NotesOpening: string := "  \"notes\": [\n"

  /** The first lines, up to and including the opening of the notes array. */
  function Header(measures: Int32, tempoBpm: real,
                  showInt: Int32 -> string, showReal: real -> string): string
  {
    Opening + MeasuresLine(measures, showInt) + TempoLine(tempoBpm, showReal) + NotesOpening
  }

  /** The closing of the notes array and of the document. */
  const Footer: string := "  ]\n}\n"

  /** The separator between two note objects. */
  const Separator: string := ",\n"

  /** One note as a JSON object, its fields in the order pitch, startBeat,
      durationBeats, velocity, with no comma after the last field and no
      line break after the closing brace. */
  function NoteObject(n: LoopNote, showInt: Int32 -> string, showReal: real -> string): (obj: string)
    ensures |obj| >= 11 && obj[..6] == "    {\n" && obj[|obj| - 5..] == "    }"
  {
    "    {\n" +
    "      \"pitch\": " + showInt(n.pitch) + ",\n" +
    "      \"startBeat\": " + showReal(n.startBeat) + ",\n" +
    "      \"durationBeats\": " + showReal(n.durationBeats) + ",\n" +
    "      \"velocity\": " + showInt(n.velocity) + "\n" +
    "    }"
  }

  /** The note objects, one per note, in list order. */
  function NoteObjects(notes: seq<LoopNote>, showInt: Int32 -> string, showReal: real -> string): (objs: seq<string>)
    ensures |objs| == |notes|
    ensures forall j :: 0 <= j < |notes| ==> objs[j] == NoteObject(notes[j], showInt, showReal)
  {
    if notes == [] then []
    else NoteObjects(notes[..|notes| - 1], showInt, showReal) + [NoteObject(notes[|notes| - 1], showInt, showReal)]
  }

  /** `parts` with `sep` between each two neighbours and nowhere else. */
  function Join(parts: seq<string>, sep: string): string {
    if parts == [] then ""
    else if |parts| == 1 then parts[0]
    else Join(parts[..|parts| - 1], sep) + sep + parts[|parts| - 1]
  }

  /** `parts`, each followed by `sep`. */
  function Terminated(parts: seq<string>, sep: string): string {
    if parts == [] then ""
    else Terminated(parts[..|parts| - 1], sep) + parts[|parts| - 1] + sep
  }

  /** The document for a loop: the header, the note objects separated by
      commas and followed by one line break, and the footer. */
  function JsonDocument(measures: Int32, tempoBpm: real, notes: seq<LoopNote>,
                        showInt: Int32 -> string, showReal: real -> string): (doc: string)
    ensures notes == [] <==> doc == Header(measures, tempoBpm, showInt, showReal) + Footer
  {
    Header(measures, tempoBpm, showInt, showReal) +
    (if notes == [] then "" else Join(NoteObjects(notes, showInt, showReal), Separator) + "\n") +
    Footer
  }

  /** Every part but the last carries the separator after it, and the last
      carries none. */
  lemma {:induction false} JoinIsTerminatedThenLast(parts: seq<string>, sep: string)
    requires parts != []
    ensures Join(parts, sep) == Terminated(parts[..|parts| - 1], sep) + parts[|parts| - 1]
  {
    if |parts| == 1 {
      assert parts[..0] == [];
    } else {
      var init := parts[..|parts| - 1];
      JoinIsTerminatedThenLast(init, sep);
      assert init[..|init| - 1] == parts[..|parts| - 2];
      assert parts[..|parts| - 1][..|parts| - 2] == parts[..|parts| - 2];
    }
  }

  /** Terminating one more part appends it and the separator. */
  lemma TerminatedNext(parts: seq<string>, i: nat, sep: string)
    requires i < |parts|
    ensures Terminated(parts[..i + 1], sep) == Terminated(parts[..i], sep) + parts[i] + sep
  {
    assert parts[..i + 1][..i] == parts[..i];
  }

  /** Appending three pieces one after the other appends their
      concatenation. */
  lemma AppendRegroups(a: string, b: string, c: string, d: string)
    ensures a + b + c + d == a + (b + c + d)
  {
  }

  /** An object other than the last, appended with its comma and line
      break, extends the objects so far by one. */
  lemma EntryAppended(header: string, objs: seq<string>, i: nat, before: string)
    requires i < |objs| && before == header + Terminated(objs[..i], Separator)
    ensures before + objs[i] + "," + "\n" == header + Terminated(objs[..i + 1], Separator)
  {
    var done := Terminated(objs[..i], Separator);
    assert "," + "\n" == Separator;
    AppendRegroups(before, objs[i], ",", "\n");
    AppendRegroups(header, done, objs[i], Separator);
    TerminatedNext(objs, i, Separator);
  }

  /** The last object, appended with its line break alone, completes the
      joined objects. */
  lemma LastEntryAppended(header: string, objs: seq<string>, before: string)
    requires objs != [] && before == header + Terminated(objs[..|objs| - 1], Separator)
    ensures before + objs[|objs| - 1] + "\n" == header + (Join(objs, Separator) + "\n")
  {
    var done := Terminated(objs[..|objs| - 1], Separator);
    AppendRegroups(header, done, objs[|objs| - 1], "\n");
    JoinIsTerminatedThenLast(objs, Separator);
  }

  /** `buildJson(loop)`: append the header, then for each note its object,
      a comma unless it is the last note, and a line break; then the
      footer. */
  method BuildJson(loop: Loop, tempoBpm: real, showInt: Int32 -> string, showReal: real -> string)
    returns (json: string)
    ensures json == JsonDocument(loop.measures, tempoBpm, loop.notes, showInt, showReal)
  {
    var sb := Header(loop.GetMeasures(), tempoBpm, showInt, showReal);
    var notes := loop.GetNotes();
    ghost var header := sb;
    ghost var objs := NoteObjects(notes, showInt, showReal);
    var i := 0;
    while i < |notes|
      invariant 0 <= i <= |notes|
      invariant i < |notes| || notes == [] ==> sb == header + Terminated(objs[..i], Separator)
      invariant i == |notes| && notes != [] ==> sb == header + (Join(objs, Separator) + "\n")
    {
      ghost var before := sb;
      var note := notes[i];
      sb := sb + NoteObject(note, showInt, showReal);
      if i < |notes| - 1 {
        sb := sb + ",";
      }
      sb := sb + "\n";
      if i < |notes| - 1 {
        EntryAppended(header, objs, i, before);
      } else {
        LastEntryAppended(header, objs, before);
      }
      i := i + 1;
    }
    sb := sb + Footer;
    json := sb;
  }

  /** `saveLoop(loop, fileName)`: a `null` loop is rejected first, then a
      `null`, empty or blank file name; otherwise the text of the loop's
      document is what gets written. */
  method SaveLoop(loop: Loop?, fileName: Option<string>, tempoBpm: real,
                  showInt: Int32 -> string, showReal: real -> string)
    returns (r: Result<string>)
    ensures loop == null ==> r == Thrown(IllegalArgumentException("loop cannot be null"))
    ensures loop != null && (fileName.None? || IsBlank(fileName.value)) ==>
              r == Thrown(IllegalArgumentException("fileName cannot be null/empty"))
    ensures loop != null && fileName.Some? && !IsBlank(fileName.value) ==>
              r == Ok(JsonDocument(loop.measures, tempoBpm, loop.notes, showInt, showReal))
  {
    if loop == null {
      return Thrown(IllegalArgumentException("loop cannot be null"));
    }
    if fileName.None? || Trim(fileName.value) == [] {
      if fileName.Some? {
        TrimEmptyIffBlank(fileName.value);
      }
      return Thrown(IllegalArgumentException("fileName cannot be null/empty"));
    }
    TrimEmptyIffBlank(fileName.value);
    var json := BuildJson(loop, tempoBpm, showInt, showReal);
    return Ok(json);
  }

  /** The document opens with `{` on a line of its own and closes with the
      notes array's `]` and the final `}`, each on a line of its own. */
  lemma JsonFraming(measures: Int32, tempoBpm: real, notes: seq<LoopNote>,
                    showInt: Int32 -> string, showReal: real -> string)
    ensures var doc := JsonDocument(measures, tempoBpm, notes, showInt, showReal);
            |doc| >= 8 && doc[..2] == "{\n" && doc[|doc| - 6..] == "  ]\n}\n"
  {
    var doc := JsonDocument(measures, tempoBpm, notes, showInt, showReal);
    var h := Header(measures, tempoBpm, showInt, showReal);
    var body := if notes == [] then "" else Join(NoteObjects(notes, showInt, showReal), Separator) + "\n";
    assert doc == h + body + Footer;
    assert h[..2] == "{\n";
    assert (h + body + Footer)[..2] == h[..2];
    assert (h + body + Footer)[|doc| - 6..] == Footer;
  }

  /** `measures` comes first, then `tempoBPM`, then the notes array. */
  lemma JsonFieldOrder(measures: Int32, tempoBpm: real, notes: seq<LoopNote>,
                       showInt: Int32 -> string, showReal: real -> string)
    ensures var doc := JsonDocument(measures, tempoBpm, notes, showInt, showReal);
            var lines := Opening + MeasuresLine(measures, showInt) + TempoLine(tempoBpm, showReal) + NotesOpening;
            |doc| >= |lines| && doc[..|lines|] == lines
  {
    var doc := JsonDocument(measures, tempoBpm, notes, showInt, showReal);
    var h := Header(measures, tempoBpm, showInt, showReal);
    var rest := (if notes == [] then "" else Join(NoteObjects(notes, showInt, showReal), Separator) + "\n") + Footer;
    assert doc == h + rest;
    assert (h + rest)[..|h|] == h;
  }

  /** A loop without notes gives an empty array: the `notes` line is
      followed directly by the line that closes it. */
  lemma EmptyLoopJson(measures: Int32, tempoBpm: real, showInt: Int32 -> string, showReal: real -> string)
    ensures var doc := JsonDocument(measures, tempoBpm, [], showInt, showReal);
            var tail := "  \"notes\": [\n  ]\n";
            |doc| >= |tail| + 2 && doc[|doc| - |tail| - 2..|doc| - 2] == tail
  {
    var doc := JsonDocument(measures, tempoBpm, [], showInt, showReal);
    var front := Opening + MeasuresLine(measures, showInt) + TempoLine(tempoBpm, showReal);
    assert doc == front + NotesOpening + Footer;
    assert Footer == "  ]\n" + "}\n";
    var tail := NotesOpening + "  ]\n";
    assert doc == front + tail + "}\n";
    assert tail == "  \"notes\": [\n  ]\n";
    assert (front + tail + "}\n")[|front|..|front| + |tail|] == tail;
  }

  /** For a loop with notes, the document is the header, one object per
      note in list order each followed by a comma and a line break, except
      the last, which is followed by the line break alone, then the
      footer. */
  lemma {:induction false} OneObjectPerNote(measures: Int32, tempoBpm: real, notes: seq<LoopNote>,
                                            showInt: Int32 -> string, showReal: real -> string)
    requires notes != []
    ensures JsonDocument(measures, tempoBpm, notes, showInt, showReal) ==
              Header(measures, tempoBpm, showInt, showReal) +
              Terminated(NoteObjects(notes[..|notes| - 1], showInt, showReal), ",\n") +
              NoteObject(notes[|notes| - 1], showInt, showReal) + "\n" + Footer
  {
    var objs := NoteObjects(notes, showInt, showReal);
    var h := Header(measures, tempoBpm, showInt, showReal);
    assert objs[..|objs| - 1] == NoteObjects(notes[..|notes| - 1], showInt, showReal);
    LastEntryAppended(h, objs, h + Terminated(objs[..|objs| - 1], ",\n"));
  }
}
