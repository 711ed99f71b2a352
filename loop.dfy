/** `Loop`: the document. A fixed, positive number of measures and an
    insertion-ordered list of notes that is edited in place. */
module Loops {
  import opened JavaSemantics
  import opened LoopNotes

  /** `List.remove(Object)` on a list of notes: drop the first element that
      is `x` itself (notes compare by identity). A list without `x`, and in
      particular any list when `x` is `null`, is returned as it is. */
  function RemoveFirst(s: seq<LoopNote>, x: LoopNote?): seq<LoopNote> {
    if s == [] then []
    else if s[0] == x then s[1..]
    else [s[0]] + RemoveFirst(s[1..], x)
  }

  /** Removing a note that is not in the list changes nothing. */
  lemma {:induction false} RemoveFirstAbsent(s: seq<LoopNote>, x: LoopNote?)
    requires x !in s
    ensures RemoveFirst(s, x) == s
  {
    if s != [] {
      assert s[0] != x;
      RemoveFirstAbsent(s[1..], x);
    }
  }

  /** Removing a note that is in the list drops exactly its first
      occurrence and keeps every other note, in order. */
  lemma {:induction false} RemoveFirstDropsFirstOccurrence(s: seq<LoopNote>, x: LoopNote?, i: nat)
    requires i < |s| && s[i] == x
    requires forall k :: 0 <= k < i ==> s[k] != x
    ensures RemoveFirst(s, x) == s[..i] + s[i + 1..]
  {
    if i > 0 {
      assert s[0] != x;
      RemoveFirstDropsFirstOccurrence(s[1..], x, i - 1);
      assert s[1..][..i - 1] == s[1..i];
      assert s[1..][i..] == s[i + 1..];
      assert [s[0]] + s[1..i] == s[..i];
    }
  }

  /** Removal takes out one copy of the note and nothing else. */
  lemma {:induction false} RemoveFirstMultiset(s: seq<LoopNote>, x: LoopNote?)
    ensures x in s ==> |RemoveFirst(s, x)| == |s| - 1
    ensures multiset(RemoveFirst(s, x)) ==
              if x in s then multiset(s) - multiset{x as LoopNote} else multiset(s)
  {
    if s != [] {
      assert s == [s[0]] + s[1..];
      assert multiset(s) == multiset{s[0]} + multiset(s[1..]);
      if s[0] != x {
        RemoveFirstMultiset(s[1..], x);
        assert RemoveFirst(s, x) == [s[0]] + RemoveFirst(s[1..], x);
        assert x in s ==> x in s[1..];
      }
    }
  }

  /** A measure count that passed the constructor's check. */
  type PositiveCount = n: int | 1 <= n <= INT_MAX witness 1

  class Loop {
    var notes: seq<LoopNote>
    const measures: PositiveCount

    /** The constructor proper, reached only when the check passes. */
    constructor Init(measures: Int32)
      requires measures > 0
      ensures this.measures == measures && notes == []
    {
      this.measures := measures;
      notes := [];
    }

    /** `new Loop(measures)`: throws unless `measures` is positive, and
        otherwise starts with no notes. */
    static method New(measures: Int32) returns (r: Result<Loop>)
      ensures r.Thrown? <==> measures <= 0
      ensures r.Thrown? ==> r.exception.IllegalArgumentException?
      ensures r.Ok? ==> fresh(r.value) && r.value.measures == measures && r.value.notes == []
    {
      if measures <= 0 {
        return Thrown(IllegalArgumentException("measures must be > 0"));
      }
      var loop := new Loop.Init(measures);
      return Ok(loop);
    }

    /** `getMeasures()`: the constructor's argument, fixed for the life of
        the loop (the field is constant). */
    function GetMeasures(): (m: Int32)
      ensures m > 0 && m == measures
    {
      measures
    }

    /** `getNotes()`: the notes in insertion order, as a value the caller
        cannot use to change the loop. */
    function GetNotes(): (r: seq<LoopNote>)
      reads this
      ensures |r| == |notes| && forall k :: 0 <= k < |r| ==> r[k] == notes[k]
    {
      notes
    }

    /** `addNote(note)`: a `null` note is ignored; any other note is
        appended, even one already in the list. */
    method AddNote(note: LoopNote?)
      modifies this
      ensures note == null ==> notes == old(notes)
      ensures note != null ==> notes == old(notes) + [note]
      ensures note != null ==> |notes| == |old(notes)| + 1 && notes[|notes| - 1] == note
      ensures forall k :: 0 <= k < |old(notes)| ==> notes[k] == old(notes)[k]
    {
      if note == null {
        return;
      }
      notes := notes + [note];
    }

    /** `removeNote(note)`: remove the first occurrence of that very
        object; a note not in the list, `null` included, changes nothing. */
    method RemoveNote(note: LoopNote?)
      modifies this
      ensures notes == RemoveFirst(old(notes), note)
      ensures note !in old(notes) ==> notes == old(notes)
      ensures note in old(notes) ==>
                |notes| == |old(notes)| - 1 &&
                multiset(notes) == multiset(old(notes)) - multiset{note as LoopNote}
    {
      if note !in notes {
        RemoveFirstAbsent(notes, note);
      }
      RemoveFirstMultiset(notes, note);
      notes := RemoveFirst(notes, note);
    }
  }

  /** Two notes with identical fields stay distinct: removing the second
      leaves the first in place. */
  method RemovalIsByIdentity() returns (kept: LoopNote, removed: LoopNote, remaining: seq<LoopNote>)
    ensures kept != removed
    ensures kept.pitch == removed.pitch && kept.startBeat == removed.startBeat
    ensures kept.durationBeats == removed.durationBeats && kept.velocity == removed.velocity
    ensures remaining == [kept]
  {
    var r := Loop.New(1);
    var loop := r.value;
    kept := new LoopNote(60, 0.0, 1.0, 100);
    removed := new LoopNote(60, 0.0, 1.0, 100);
    loop.AddNote(kept);
    loop.AddNote(removed);
    loop.RemoveNote(removed);
    RemoveFirstDropsFirstOccurrence([kept, removed], removed, 1);
    remaining := loop.GetNotes();
  }
}
