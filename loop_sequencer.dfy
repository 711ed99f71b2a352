/** `LoopSequencer`: plays a loop by calling the audio engine's `noteOn` and
    `noteOff` at the notes' start and end times, pass after pass, until it is
    paused.

    The playback thread is modelled sequentially. What the audio engine
    receives is the trace `sent`, with the clock reading of each call in
    `sentAt`; `System.nanoTime` is the abstract millisecond clock `clock`.
    A `pause()` from the controlling thread may land at any point where the
    playback routine reads `playing`: the routine calls `MaybePause` there,
    which nondeterministically performs a `Pause`, so every proved property
    holds however the stops fall. */
module Sequencer {
  import opened JavaSemantics
  import opened LoopNotes
  import opened Loops

  /** A call the sequencer makes on its audio engine. */
  datatype SinkCall = NoteOn(pitch: Int32, velocity: Int32) | NoteOff(pitch: Int32)

  /** The two calls one note contributes once the routine gets past it. */
  function NoteCalls(n: LoopNote): seq<SinkCall> {
    [NoteOn(n.pitch, n.velocity), NoteOff(n.pitch)]
  }

  /** The calls of a pass that dispatches `notes`, one note after the other,
      in list order. */
  function PassCalls(notes: seq<LoopNote>): (calls: seq<SinkCall>)
    ensures |calls| == 2 * |notes|
  {
    if notes == [] then []
    else PassCalls(notes[..|notes| - 1]) + NoteCalls(notes[|notes| - 1])
  }

  /** The calls of consecutive passes over the same notes, the `k`-th pass
      getting through the first `started[k]` notes. */
  function Passes(notes: seq<LoopNote>, started: seq<nat>): seq<SinkCall>
    requires forall k :: 0 <= k < |started| ==> started[k] <= |notes|
  {
    if started == [] then []
    else Passes(notes, started[..|started| - 1]) + PassCalls(notes[..started[|started| - 1]])
  }

  /** One `noteOff` per pitch, in order. */
  function OffCalls(pitches: seq<Int32>): (calls: seq<SinkCall>)
    ensures |calls| == |pitches|
  {
    if pitches == [] then []
    else OffCalls(pitches[..|pitches| - 1]) + [NoteOff(pitches[|pitches| - 1])]
  }

  /** What `runPlaybackLoop` has done so far, seen at clock reading `now`
      with `playing` equal to `live`: pass `k` started at `passStarts[k]`,
      between `start` and `now`, and turned on `startedPerPass[k]` notes;
      every pass but the last turned on all of them, and the last one too
      while `live`; each pass started no earlier than `gap` after the one
      before it, and while `live` the clock is at least `gap` past the
      last pass's start. */
  ghost predicate History(notes: seq<LoopNote>, start: int, gap: int,
                          passStarts: seq<int>, startedPerPass: seq<nat>, now: int, live: bool)
  {
    && start <= now
    && |passStarts| == |startedPerPass|
    && (forall k :: 0 <= k < |startedPerPass| ==> startedPerPass[k] <= |notes|)
    && (forall k :: 0 <= k < |startedPerPass| - 1 ==> startedPerPass[k] == |notes|)
    && (live ==> forall k :: 0 <= k < |startedPerPass| ==> startedPerPass[k] == |notes|)
    && (forall k :: 0 <= k < |passStarts| ==> start <= passStarts[k] <= now)
    && (forall k :: 0 < k < |passStarts| ==> passStarts[k - 1] + gap <= passStarts[k])
    && (live && passStarts != [] ==> passStarts[|passStarts| - 1] + gap <= now)
  }

  /** A pass that starts while playing at the current clock reading extends
      the history by one. */
  lemma HistoryExtended(notes: seq<LoopNote>, start: int, gap: int,
                        passStarts: seq<int>, startedPerPass: seq<nat>, now: int,
                        passStart: int, started: nat, now': int, live': bool)
    requires History(notes, start, gap, passStarts, startedPerPass, now, true)
    requires passStart == now <= now' && started <= |notes|
    requires live' ==> started == |notes| && passStart + gap <= now'
    ensures History(notes, start, gap, passStarts + [passStart], startedPerPass + [started], now', live')
  {
    var ps, spp := passStarts + [passStart], startedPerPass + [started];
    assert forall k :: 0 <= k < |spp| ==> spp[k] == if k < |startedPerPass| then startedPerPass[k] else started;
    assert forall k :: 0 <= k < |ps| ==> ps[k] == if k < |passStarts| then passStarts[k] else passStart;
  }

  /** Regrouping three concatenated sequences. */
  lemma Regroup<T>(a: seq<T>, b: seq<T>, c: seq<T>)
    ensures a + b + c == a + (b + c)
  {
  }

  /** A pass's calls met its schedule: `stamps` are their clock readings,
      two per note in list order. Every call was made no earlier than the
      pass start `passStart`, the `noteOn` of note `k` no earlier than
      `passStart` plus its start offset, and the `noteOff` of each of the
      first `offs` notes no earlier than `passStart` plus its end offset.
      The `noteOff` of a note a stop caught after its `noteOn` is the
      cleanup's, sent at the stop, and is not among the first `offs`. */
  ghost predicate OnSchedule(notes: seq<LoopNote>, passStart: int, beatMs: real, stamps: seq<int>, offs: nat)
  {
    && (forall j :: 0 <= j < |stamps| ==> passStart <= stamps[j])
    && (forall k :: 0 <= k < |notes| && 2 * k < |stamps| ==>
          passStart + OnDelayMs(notes[k], beatMs) <= stamps[2 * k])
    && (forall k :: 0 <= k < |notes| && k < offs && 2 * k + 1 < |stamps| ==>
          passStart + OffDelayMs(notes[k], beatMs) <= stamps[2 * k + 1])
  }

  /** The stamps of note `i`'s calls, each on schedule, extend the
      schedule met by the notes before it; its `noteOff` counts once it is
      sent. */
  lemma OnScheduleNext(notes: seq<LoopNote>, passStart: int, beatMs: real, stamps: seq<int>, i: nat, d: seq<int>)
    requires i < |notes| && |stamps| == 2 * i && |d| <= 2
    requires OnSchedule(notes, passStart, beatMs, stamps, i)
    requires forall j :: 0 <= j < |d| ==> passStart <= d[j]
    requires |d| >= 1 ==> passStart + OnDelayMs(notes[i], beatMs) <= d[0]
    requires |d| == 2 ==> passStart + OffDelayMs(notes[i], beatMs) <= d[1]
    ensures OnSchedule(notes, passStart, beatMs, stamps + d, if |d| == 2 then i + 1 else i)
  {
    var s := stamps + d;
    assert forall j :: 0 <= j < |s| ==> s[j] == if j < |stamps| then stamps[j] else d[j - |stamps|];
  }

  /** The cleanup's `noteOff` for the note a stop caught keeps the
      schedule. */
  lemma OnScheduleCleanup(notes: seq<LoopNote>, passStart: int, beatMs: real, stamps: seq<int>, offs: nat, t: int)
    requires |stamps| == 2 * offs + 1 && passStart <= t
    requires OnSchedule(notes, passStart, beatMs, stamps, offs)
    ensures OnSchedule(notes, passStart, beatMs, stamps + [t], offs)
  {
    var s := stamps + [t];
    forall j | 0 <= j < |s|
      ensures passStart <= s[j]
    {
      if j < |stamps| {
        assert s[j] == stamps[j];
      }
    }
    forall k | 0 <= k < |notes| && 2 * k < |s|
      ensures passStart + OnDelayMs(notes[k], beatMs) <= s[2 * k]
    {
      assert s[2 * k] == stamps[2 * k];
    }
    forall k | 0 <= k < |notes| && k < offs && 2 * k + 1 < |s|
      ensures passStart + OffDelayMs(notes[k], beatMs) <= s[2 * k + 1]
    {
      assert s[2 * k + 1] == stamps[2 * k + 1];
    }
  }

  /** How the clock readings `stamps` of the calls of consecutive passes,
      seen with `playing` equal to `live`, divide into passes: pass `k`'s
      calls are the `2 * startedPerPass[k]` readings from index `bases[k]`
      on, one pass after the other with nothing between them. The first
      `offsPerPass[k]` of pass `k`'s notes got their `noteOff` from the
      walk: all of them for every pass but the last, and for the last too
      while `live`, and all but the last note turned on otherwise. */
  ghost predicate Layout(startedPerPass: seq<nat>, offsPerPass: seq<nat>, bases: seq<nat>, stamps: seq<int>, live: bool)
  {
    && |bases| == |startedPerPass| == |offsPerPass|
    && (bases == [] ==> stamps == [])
    && (bases != [] ==> bases[0] == 0 && |stamps| == bases[|bases| - 1] + 2 * startedPerPass[|bases| - 1])
    && (forall k :: 0 < k < |bases| ==> bases[k] == bases[k - 1] + 2 * startedPerPass[k - 1])
    && (forall k :: 0 <= k < |bases| ==> offsPerPass[k] <= startedPerPass[k] <= offsPerPass[k] + 1)
    && (forall k :: 0 <= k < |bases| - 1 ==> offsPerPass[k] == startedPerPass[k])
    && (live ==> forall k :: 0 <= k < |bases| ==> offsPerPass[k] == startedPerPass[k])
  }

  /** Every pass `k` met its schedule from its start `passStarts[k]`. */
  ghost predicate Schedules(notes: seq<LoopNote>, beatMs: real, passStarts: seq<int>, startedPerPass: seq<nat>,
                            offsPerPass: seq<nat>, bases: seq<nat>, stamps: seq<int>)
  {
    && |bases| == |passStarts| == |startedPerPass| == |offsPerPass|
    && (forall k :: 0 <= k < |bases| ==> bases[k] + 2 * startedPerPass[k] <= |stamps|)
    && (forall k :: 0 <= k < |bases| ==>
          OnSchedule(notes, passStarts[k], beatMs, stamps[bases[k]..bases[k] + 2 * startedPerPass[k]], offsPerPass[k]))
  }

  /** No call of pass `k` or a later pass was made before pass `k` started. */
  ghost predicate StartsPrecede(passStarts: seq<int>, bases: seq<nat>, stamps: seq<int>)
  {
    && |bases| == |passStarts|
    && (forall k, j :: 0 <= k < |bases| && bases[k] <= j < |stamps| ==> passStarts[k] <= stamps[j])
  }

  /** The calls of consecutive passes, laid out pass by pass, each on
      schedule from its own start, and none before its pass started. */
  ghost predicate Timeline(notes: seq<LoopNote>, beatMs: real, passStarts: seq<int>, startedPerPass: seq<nat>,
                           offsPerPass: seq<nat>, bases: seq<nat>, stamps: seq<int>, live: bool)
  {
    && Layout(startedPerPass, offsPerPass, bases, stamps, live)
    && Schedules(notes, beatMs, passStarts, startedPerPass, offsPerPass, bases, stamps)
    && StartsPrecede(passStarts, bases, stamps)
  }

  /** One more pass, started while playing, extends the layout. */
  lemma LayoutExtended(startedPerPass: seq<nat>, offsPerPass: seq<nat>, bases: seq<nat>, stamps: seq<int>,
                       started: nat, offs: nat, passStamps: seq<int>, live': bool)
    requires Layout(startedPerPass, offsPerPass, bases, stamps, true)
    requires offs <= started <= offs + 1 && |passStamps| == 2 * started
    requires live' ==> offs == started
    ensures Layout(startedPerPass + [started], offsPerPass + [offs], bases + [|stamps|], stamps + passStamps, live')
  {
    var spp, opp, bs := startedPerPass + [started], offsPerPass + [offs], bases + [|stamps|];
    var n := |bases|;
    assert forall k :: 0 <= k < n ==> spp[k] == startedPerPass[k] && opp[k] == offsPerPass[k] && bs[k] == bases[k];
    assert spp[n] == started && opp[n] == offs && bs[n] == |stamps|;
  }

  /** Each pass keeps the schedule it met when one more pass's stamps are
      appended after all of theirs, and the new pass meets its own. */
  lemma SchedulesExtended(notes: seq<LoopNote>, beatMs: real, passStarts: seq<int>, startedPerPass: seq<nat>,
                          offsPerPass: seq<nat>, bases: seq<nat>, stamps: seq<int>,
                          passStart: int, started: nat, offs: nat, passStamps: seq<int>)
    requires Schedules(notes, beatMs, passStarts, startedPerPass, offsPerPass, bases, stamps)
    requires |passStamps| == 2 * started && OnSchedule(notes, passStart, beatMs, passStamps, offs)
    ensures Schedules(notes, beatMs, passStarts + [passStart], startedPerPass + [started], offsPerPass + [offs],
                      bases + [|stamps|], stamps + passStamps)
  {
    var ps, spp, opp := passStarts + [passStart], startedPerPass + [started], offsPerPass + [offs];
    var bs, s := bases + [|stamps|], stamps + passStamps;
    forall k | 0 <= k < |bs|
      ensures bs[k] + 2 * spp[k] <= |s|
    {
      if k < |bases| {
        assert spp[k] == startedPerPass[k] && bs[k] == bases[k];
      }
    }
    forall k | 0 <= k < |bs|
      ensures OnSchedule(notes, ps[k], beatMs, s[bs[k]..bs[k] + 2 * spp[k]], opp[k])
    {
      if k < |bases| {
        assert ps[k] == passStarts[k] && spp[k] == startedPerPass[k] && opp[k] == offsPerPass[k] && bs[k] == bases[k];
        assert s[bs[k]..bs[k] + 2 * spp[k]] == stamps[bases[k]..bases[k] + 2 * startedPerPass[k]];
      } else {
        assert s[bs[k]..bs[k] + 2 * spp[k]] == passStamps;
      }
    }
  }

  /** When one more pass, started no earlier than every pass before it,
      appends stamps no earlier than its start, no call still precedes the
      start of its pass or an earlier one. */
  lemma StartsExtended(passStarts: seq<int>, bases: seq<nat>, stamps: seq<int>,
                       passStart: int, passStamps: seq<int>)
    requires StartsPrecede(passStarts, bases, stamps)
    requires forall k :: 0 <= k < |passStarts| ==> passStarts[k] <= passStart
    requires forall j :: 0 <= j < |passStamps| ==> passStart <= passStamps[j]
    ensures StartsPrecede(passStarts + [passStart], bases + [|stamps|], stamps + passStamps)
  {
    var ps, bs, s := passStarts + [passStart], bases + [|stamps|], stamps + passStamps;
    forall k, j | 0 <= k < |bs| && bs[k] <= j < |s|
      ensures ps[k] <= s[j]
    {
      if j < |stamps| {
        assert k < |bases| && s[j] == stamps[j] && ps[k] == passStarts[k] && bs[k] == bases[k];
      } else {
        assert s[j] == passStamps[j - |stamps|];
        assert k < |bases| ==> ps[k] == passStarts[k];
      }
    }
  }

  /** A pass that starts while playing, no earlier than every pass before
      it, and meets its schedule extends the timeline by one. */
  lemma TimelineExtended(notes: seq<LoopNote>, beatMs: real, passStarts: seq<int>, startedPerPass: seq<nat>,
                         offsPerPass: seq<nat>, bases: seq<nat>, stamps: seq<int>,
                         passStart: int, started: nat, offs: nat, passStamps: seq<int>, live': bool)
    requires Timeline(notes, beatMs, passStarts, startedPerPass, offsPerPass, bases, stamps, true)
    requires forall k :: 0 <= k < |passStarts| ==> passStarts[k] <= passStart
    requires offs <= started <= offs + 1 && |passStamps| == 2 * started
    requires OnSchedule(notes, passStart, beatMs, passStamps, offs)
    requires live' ==> offs == started
    ensures Timeline(notes, beatMs, passStarts + [passStart], startedPerPass + [started], offsPerPass + [offs],
                     bases + [|stamps|], stamps + passStamps, live')
  {
    LayoutExtended(startedPerPass, offsPerPass, bases, stamps, started, offs, passStamps, live');
    SchedulesExtended(notes, beatMs, passStarts, startedPerPass, offsPerPass, bases, stamps,
                      passStart, started, offs, passStamps);
    StartsExtended(passStarts, bases, stamps, passStart, passStamps);
  }

  /** What `runPlaybackLoop` has done since the trace was `before`, its
      stamps `atStart` and the clock `start`, seen with trace `sent`, stamps
      `sentAt`, clock `now` and `playing` equal to `live`: the passes'
      starts and notes as `History` describes them, their calls' clock
      readings as `Timeline` does, and the trace grown by exactly the
      passes' calls. */
  ghost predicate Played(notes: seq<LoopNote>, before: seq<SinkCall>, atStart: seq<int>, start: int,
                         gap: int, beatMs: real, passStarts: seq<int>, startedPerPass: seq<nat>,
                         offsPerPass: seq<nat>, bases: seq<nat>, stamps: seq<int>,
                         sent: seq<SinkCall>, sentAt: seq<int>, now: int, live: bool)
  {
    && History(notes, start, gap, passStarts, startedPerPass, now, live)
    && Timeline(notes, beatMs, passStarts, startedPerPass, offsPerPass, bases, stamps, live)
    && sent == before + Passes(notes, startedPerPass)
    && sentAt == atStart + stamps
  }

  /** Before the first pass nothing has been played. */
  lemma PlayedNone(notes: seq<LoopNote>, before: seq<SinkCall>, atStart: seq<int>, start: int,
                   gap: int, beatMs: real, live: bool)
    ensures Played(notes, before, atStart, start, gap, beatMs, [], [], [], [], [], before, atStart, start, live)
  {
    assert before + [] == before && atStart + [] == atStart;
  }

  /** A pass that starts while playing at the clock reading `now`, sends
      its calls on schedule and, when playing goes on, completes and is
      followed by a wait of at least `gap`, extends what has been played
      by one pass. */
  lemma PlayedExtended(notes: seq<LoopNote>, before: seq<SinkCall>, atStart: seq<int>, start: int,
                       gap: int, beatMs: real, passStarts: seq<int>, startedPerPass: seq<nat>,
                       offsPerPass: seq<nat>, bases: seq<nat>, stamps: seq<int>,
                       sent: seq<SinkCall>, sentAt: seq<int>, now: int,
                       passStart: int, started: nat, offs: nat, passStamps: seq<int>,
                       sent': seq<SinkCall>, sentAt': seq<int>, now': int, live': bool)
    requires Played(notes, before, atStart, start, gap, beatMs, passStarts, startedPerPass, offsPerPass, bases, stamps,
                    sent, sentAt, now, true)
    requires passStart == now <= now' && started <= |notes|
    requires sent' == sent + PassCalls(notes[..started])
    requires sentAt' == sentAt + passStamps && |passStamps| == 2 * started
    requires offs <= started <= offs + 1 && OnSchedule(notes, passStart, beatMs, passStamps, offs)
    requires live' ==> started == |notes| && offs == started && passStart + gap <= now'
    ensures Played(notes, before, atStart, start, gap, beatMs, passStarts + [passStart], startedPerPass + [started],
                   offsPerPass + [offs], bases + [|stamps|], stamps + passStamps, sent', sentAt', now', live')
  {
    HistoryExtended(notes, start, gap, passStarts, startedPerPass, now, passStart, started, now', live');
    TimelineExtended(notes, beatMs, passStarts, startedPerPass, offsPerPass, bases, stamps,
                     passStart, started, offs, passStamps, live');
    PassesNext(notes, startedPerPass, started);
    Regroup(before, Passes(notes, startedPerPass), PassCalls(notes[..started]));
    Regroup(atStart, stamps, passStamps);
  }

  /** The calls of one more pass follow those of the passes before it. */
  lemma PassesNext(notes: seq<LoopNote>, started: seq<nat>, n: nat)
    requires forall k :: 0 <= k < |started| ==> started[k] <= |notes|
    requires n <= |notes|
    ensures Passes(notes, started + [n]) == Passes(notes, started) + PassCalls(notes[..n])
  {
    assert (started + [n])[..|started|] == started;
  }

  /** An iteration order of a one-element set is that element alone. */
  lemma SingleOrder(pitches: set<Int32>, order: seq<Int32>)
    requires |order| == |pitches| && (forall p :: p in order <==> p in pitches)
    requires |pitches| <= 1 && pitches != {}
    ensures |order| == 1 && pitches == {order[0]} && OffCalls(order) == [NoteOff(order[0])]
  {
    assert order == [order[0]];
  }

  /** The pitches sounding after a call, as a MIDI device sees them. */
  function Sound(sounding: set<Int32>, c: SinkCall): set<Int32> {
    match c
    case NoteOn(p, _) => sounding + {p}
    case NoteOff(p) => sounding - {p}
  }

  /** The pitches left sounding after `calls`, starting from `sounding`. */
  function SoundingAfter(sounding: set<Int32>, calls: seq<SinkCall>): set<Int32> {
    if calls == [] then sounding
    else Sound(SoundingAfter(sounding, calls[..|calls| - 1]), calls[|calls| - 1])
  }

  /** Each note contributes `noteOn(pitch, velocity)` and then
      `noteOff(pitch)`, right before the next note's `noteOn`: exactly one of
      each per note, in list order. */
  lemma {:induction false} PassCallsShape(notes: seq<LoopNote>)
    ensures |PassCalls(notes)| == 2 * |notes|
    ensures forall k :: 0 <= k < |notes| ==>
              PassCalls(notes)[2 * k] == NoteOn(notes[k].pitch, notes[k].velocity) &&
              PassCalls(notes)[2 * k + 1] == NoteOff(notes[k].pitch)
  {
    if notes != [] {
      var init := notes[..|notes| - 1];
      PassCallsShape(init);
      forall k | 0 <= k < |notes|
        ensures PassCalls(notes)[2 * k] == NoteOn(notes[k].pitch, notes[k].velocity)
        ensures PassCalls(notes)[2 * k + 1] == NoteOff(notes[k].pitch)
      {
        if k < |notes| - 1 {
          assert notes[k] == init[k];
        }
      }
    }
  }

  /** Getting past one more note appends that note's two calls. */
  lemma PassCallsNext(notes: seq<LoopNote>, i: nat)
    requires i < |notes|
    ensures PassCalls(notes[..i + 1]) == PassCalls(notes[..i]) + NoteCalls(notes[i])
  {
    assert notes[..i + 1][..i] == notes[..i];
  }

  /** A pass cut short after `m` notes sends a prefix of the full pass. */
  lemma {:induction false} PassCallsPrefix(notes: seq<LoopNote>, m: nat)
    requires m <= |notes|
    ensures PassCalls(notes[..m]) == PassCalls(notes)[..2 * m]
  {
    PassCallsShape(notes);
    PassCallsShape(notes[..m]);
    assert forall k :: 0 <= k < m ==> notes[..m][k] == notes[k];
    var a, b := PassCalls(notes[..m]), PassCalls(notes)[..2 * m];
    forall j | 0 <= j < 2 * m ensures a[j] == b[j] {
      var k := j / 2;
      assert 0 <= k < m && notes[..m][k] == notes[k];
      assert a[2 * k] == b[2 * k] && a[2 * k + 1] == b[2 * k + 1];
      assert j == 2 * k || j == 2 * k + 1;
    }
  }

  /** No stuck notes: after a pass, every pitch it turned on is off again,
      and nothing that was silent before is sounding. */
  lemma {:induction false} PassSilences(sounding: set<Int32>, before: seq<SinkCall>, notes: seq<LoopNote>)
    ensures SoundingAfter(sounding, before + PassCalls(notes)) <= SoundingAfter(sounding, before)
    ensures forall n :: n in notes ==> n.pitch !in SoundingAfter(sounding, before + PassCalls(notes))
  {
    if notes == [] {
      assert before + PassCalls(notes) == before;
    } else {
      var init, last := notes[..|notes| - 1], notes[|notes| - 1];
      PassSilences(sounding, before, init);
      var x := before + PassCalls(init);
      var all := before + PassCalls(notes);
      assert all == x + [NoteOn(last.pitch, last.velocity)] + [NoteOff(last.pitch)];
      assert all[..|all| - 1] == x + [NoteOn(last.pitch, last.velocity)];
      assert all[..|all| - 1][..|x|] == x;
      assert SoundingAfter(sounding, all) == SoundingAfter(sounding, x) + {last.pitch} - {last.pitch};
      forall n | n in notes ensures n.pitch !in SoundingAfter(sounding, all) {
        if n != last {
          var k :| 0 <= k < |notes| && notes[k] == n;
          assert k < |notes| - 1 && init[k] == n;
        }
      }
    }
  }

  /** Consecutive passes, complete or cut short, leave no note sounding that
      was not sounding before them. */
  lemma {:induction false} PassesSilence(sounding: set<Int32>, before: seq<SinkCall>,
                                          notes: seq<LoopNote>, started: seq<nat>)
    requires forall k :: 0 <= k < |started| ==> started[k] <= |notes|
    ensures SoundingAfter(sounding, before + Passes(notes, started)) <= SoundingAfter(sounding, before)
  {
    if started == [] {
      assert before + Passes(notes, started) == before;
    } else {
      var init := started[..|started| - 1];
      PassesSilence(sounding, before, notes, init);
      var x := before + Passes(notes, init);
      var pass := PassCalls(notes[..started[|started| - 1]]);
      assert Passes(notes, started) == Passes(notes, init) + pass;
      assert before + Passes(notes, started) == x + pass;
      PassSilences(sounding, x, notes[..started[|started| - 1]]);
    }
  }

  /** `60000.0 / bpm`: the length of one beat, in milliseconds. */
  function BeatMs(bpm: real): (ms: real)
    requires bpm > 0.0
    ensures ms > 0.0 && ms * bpm == 60000.0
  {
    60000.0 / bpm
  }

  /** The offset from the pass start at which a note is turned on. */
  function OnDelayMs(n: LoopNote, beatMs: real): (d: Int64)
    ensures n.startBeat >= 0.0 && beatMs >= 0.0 ==> d >= 0
    ensures LONG_MIN as real <= n.startBeat * beatMs + 0.5 < LONG_MAX as real + 1.0 ==>
              -0.5 < d as real - n.startBeat * beatMs <= 0.5
  {
    assert n.startBeat >= 0.0 && beatMs >= 0.0 ==> n.startBeat * beatMs >= 0.0;
    JavaRound(n.startBeat * beatMs)
  }

  /** The offset from the pass start at which a note is turned off. */
  function OffDelayMs(n: LoopNote, beatMs: real): (d: Int64)
    ensures n.startBeat + n.durationBeats >= 0.0 && beatMs >= 0.0 ==> d >= 0
    ensures LONG_MIN as real <= (n.startBeat + n.durationBeats) * beatMs + 0.5 < LONG_MAX as real + 1.0 ==>
              -0.5 < d as real - (n.startBeat + n.durationBeats) * beatMs <= 0.5
  {
    assert n.startBeat + n.durationBeats >= 0.0 && beatMs >= 0.0 ==>
             (n.startBeat + n.durationBeats) * beatMs >= 0.0;
    JavaRound((n.startBeat + n.durationBeats) * beatMs)
  }

  /** `measures * beatsPerMeasure`, an `int` product. */
  function TotalBeats(measures: Int32, beatsPerMeasure: Int32): (total: Int32)
    ensures INT_MIN <= measures * beatsPerMeasure <= INT_MAX ==> total == measures * beatsPerMeasure
    ensures (measures * beatsPerMeasure - total) % TWO_32 == 0
  {
    Wrap32(measures * beatsPerMeasure)
  }

  /** The length of a pass, in milliseconds. */
  function LoopDurationMs(totalBeats: Int32, beatMs: real): (d: Int64)
    ensures totalBeats >= 0 && beatMs >= 0.0 ==> d >= 0
    ensures LONG_MIN as real <= totalBeats as real * beatMs + 0.5 < LONG_MAX as real + 1.0 ==>
              -0.5 < d as real - totalBeats as real * beatMs <= 0.5
  {
    assert totalBeats >= 0 && beatMs >= 0.0 ==> totalBeats as real * beatMs >= 0.0;
    JavaRound(totalBeats as real * beatMs)
  }

  /** `Math.round` never reverses the order of its arguments. */
  lemma JavaRoundMonotonic(x: real, y: real)
    requires x <= y
    ensures JavaRound(x) <= JavaRound(y)
  {
    assert (x + 0.5).Floor <= (y + 0.5).Floor;
  }

  /** A note with a non-negative duration is never scheduled to end before
      it starts. */
  lemma OffNotBeforeOn(n: LoopNote, beatMs: real)
    requires n.durationBeats >= 0.0 && beatMs >= 0.0
    ensures OnDelayMs(n, beatMs) <= OffDelayMs(n, beatMs)
  {
    assert n.startBeat * beatMs <= (n.startBeat + n.durationBeats) * beatMs;
    JavaRoundMonotonic(n.startBeat * beatMs, (n.startBeat + n.durationBeats) * beatMs);
  }

  /** One measure of four beats at 120 BPM, with a one-beat note on beat 0:
      on at 0 ms, off at 500 ms, next pass at 2000 ms. */
  lemma OneNoteAt120Bpm(n: LoopNote)
    requires n.startBeat == 0.0 && n.durationBeats == 1.0
    ensures BeatMs(120.0) == 500.0
    ensures OnDelayMs(n, 500.0) == 0 && OffDelayMs(n, 500.0) == 500
    ensures LoopDurationMs(TotalBeats(1, 4), 500.0) == 2000
  {
    assert JavaRound(500.0) == 500;
    assert JavaRound(2000.0) == 2000;
  }

  class LoopSequencer {
    const bpm: real
    const beatsPerMeasure: Int32

    /** The `volatile boolean playing` flag. */
    var playing: bool
    /** The loop of every playback thread started so far, in order. */
    var playbackThreads: seq<Loop>
    /** Every call made on the audio engine, in order. */
    var sent: seq<SinkCall>
    /** The clock reading at which each call in `sent` was made. */
    var sentAt: seq<int>
    /** The abstract clock, in milliseconds. */
    var clock: int

    /** Calls are recorded in the order the clock saw them, none in the
        future. */
    ghost predicate Valid()
      reads this`sent, this`sentAt, this`clock
    {
      && bpm > 0.0
      && |sentAt| == |sent|
      && (forall i :: 0 < i < |sentAt| ==> sentAt[i - 1] <= sentAt[i])
      && (forall i :: 0 <= i < |sentAt| ==> sentAt[i] <= clock)
    }

    /** `new LoopSequencer(audioEngine, bpm, beatsPerMeasure)`: stopped, with
        nothing sent yet. */
    constructor (bpm: real, beatsPerMeasure: Int32)
      requires bpm > 0.0
      ensures Valid()
      ensures this.bpm == bpm && this.beatsPerMeasure == beatsPerMeasure
      ensures !playing && playbackThreads == [] && sent == []
    {
      this.bpm := bpm;
      this.beatsPerMeasure := beatsPerMeasure;
      playing := false;
      playbackThreads := [];
      sent, sentAt := [], [];
      clock := 0;
    }

    /** `play(loop)`: ignored while playing and for a `null` loop; otherwise
        sets `playing` and starts exactly one playback thread for `loop`. */
    method Play(loop: Loop?)
      requires Valid()
      modifies this`playing, this`playbackThreads
      ensures Valid()
      ensures old(playing) ==> playing && playbackThreads == old(playbackThreads)
      ensures !old(playing) && loop == null ==> !playing && playbackThreads == old(playbackThreads)
      ensures !old(playing) && loop != null ==>
                playing && playbackThreads == old(playbackThreads) + [loop]
      ensures sent == old(sent)
    {
      if playing {
        return;
      }
      if loop == null {
        return;
      }
      playing := true;
      playbackThreads := playbackThreads + [loop];
    }

    /** `pause()`: clears `playing`, and nothing else. When already stopped
        it changes nothing; when playing it sends nothing itself, because
        `stopAllNotes` is empty: turning notes off is left to the playback
        thread's cleanup. */
    method Pause()
      requires Valid()
      modifies this`playing
      ensures Valid()
      ensures !playing
      ensures sent == old(sent)
    {
      if !playing {
        return;
      }
      playing := false;
    }

    /** A point where the playback thread reads `playing`: a concurrent
        `pause()` may or may not have landed just before it. */
    method MaybePause()
      requires Valid()
      modifies this`playing
      ensures Valid()
      ensures playing ==> old(playing)
    {
      if * {
        Pause();
      }
    }

    /** One call on the audio engine, stamped with the current clock. */
    method Send(c: SinkCall)
      requires Valid()
      modifies this`sent, this`sentAt
      ensures Valid()
      ensures sent == old(sent) + [c] && sentAt == old(sentAt) + [clock]
    {
      sent, sentAt := sent + [c], sentAt + [clock];
    }

    /** `sleepUntil(target)`: wait until the clock reaches `target`, giving
        up as soon as `playing` is false. It returns at once when the target
        has passed or playback is already stopped. */
    method SleepUntil(target: int)
      requires Valid()
      modifies this`clock, this`playing
      ensures Valid()
      ensures old(clock) <= clock
      ensures playing ==> old(playing) && target <= clock
      ensures !old(playing) || target <= old(clock) ==> clock == old(clock) && playing == old(playing)
    {
      while playing && clock < target
        invariant Valid()
        invariant old(clock) <= clock
        invariant playing ==> old(playing)
        invariant !old(playing) || target <= old(clock) ==> clock == old(clock) && playing == old(playing)
        decreases target - clock
      {
        // Thread.sleep or Thread.yield: at least one tick passes.
        var elapsed: int :| elapsed >= 1;
        clock := clock + elapsed;
        MaybePause();
      }
    }

    /** `for (int pitch : activePitches) audioEngine.noteOff(pitch)`: one
        `noteOff` per pitch of the set, in the set's iteration order `order`,
        which `HashSet` leaves unspecified. Every call is stamped with the
        current clock reading; `stamps` are those stamps. */
    method TurnOffAll(pitches: set<Int32>) returns (order: seq<Int32>, ghost stamps: seq<int>)
      requires Valid()
      modifies this`sent, this`sentAt
      ensures Valid()
      ensures |order| == |pitches| && (forall p :: p in order <==> p in pitches)
      ensures sent == old(sent) + OffCalls(order)
      ensures sentAt == old(sentAt) + stamps && |stamps| == |order|
      ensures forall j :: 0 <= j < |stamps| ==> stamps[j] == clock
    {
      order, stamps := [], [];
      var rest := pitches;
      while rest != {}
        invariant rest <= pitches
        invariant |order| + |rest| == |pitches|
        invariant forall p :: p in order <==> p in pitches - rest
        invariant Valid()
        invariant sent == old(sent) + OffCalls(order)
        invariant sentAt == old(sentAt) + stamps && |stamps| == |order|
        invariant forall j :: 0 <= j < |stamps| ==> stamps[j] == clock
        decreases rest
      {
        var pitch :| pitch in rest;
        Send(NoteOff(pitch));
        Regroup(old(sentAt), stamps, [clock]);
        order, stamps := order + [pitch], stamps + [clock];
        rest := rest - {pitch};
      }
    }

    /** The steps of the walk for one note after the check at the top of
        its iteration: wait for its start, check `playing`, `noteOn`, wait
        for its end, check `playing`, `noteOff`. `turnedOn` and `turnedOff`
        say which of the two calls were made before a stop was seen, and
        `stamps` are the clock readings at which they were made. */
    method DispatchNote(note: LoopNote, passStart: int, beatMs: real)
      returns (turnedOn: bool, turnedOff: bool, ghost stamps: seq<int>)
      requires Valid() && passStart <= clock
      modifies this`playing, this`clock, this`sent, this`sentAt
      ensures Valid() && old(clock) <= clock
      ensures turnedOff ==> turnedOn && playing
      ensures !turnedOff ==> !playing
      ensures sent == old(sent) + (if turnedOff then NoteCalls(note)
                                   else if turnedOn then [NoteOn(note.pitch, note.velocity)]
                                   else [])
      ensures sentAt == old(sentAt) + stamps
      ensures |stamps| == (if turnedOff then 2 else if turnedOn then 1 else 0)
      ensures forall j :: 0 <= j < |stamps| ==> passStart <= stamps[j]
      ensures turnedOn ==> passStart + OnDelayMs(note, beatMs) <= stamps[0]
      ensures turnedOff ==> passStart + OffDelayMs(note, beatMs) <= stamps[1]
    {
      turnedOn, turnedOff, stamps := false, false, [];
      SleepUntil(passStart + OnDelayMs(note, beatMs));
      MaybePause();
      if !playing {
        return;
      }
      Send(NoteOn(note.pitch, note.velocity));
      turnedOn, stamps := true, [clock];

      SleepUntil(passStart + OffDelayMs(note, beatMs));
      MaybePause();
      if !playing {
        return;
      }
      Send(NoteOff(note.pitch));
      Regroup(old(sentAt), stamps, [clock]);
      turnedOff, stamps := true, stamps + [clock];
    }

    /** The body of the walk for note `i`: the calls of the pass so far,
        which started at index `|before|` of the trace, grow by what
        `DispatchNote` sent for that note, and the pass's stamps, which
        follow the clock readings `atBefore` of the calls before it, grow
        by theirs, still on schedule. */
    method WalkStep(notes: seq<LoopNote>, i: nat, ghost before: seq<SinkCall>, ghost atBefore: seq<int>,
                    passStart: int, beatMs: real, ghost stamps: seq<int>)
      returns (turnedOn: bool, turnedOff: bool, ghost stamps': seq<int>)
      requires Valid() && passStart <= clock && i < |notes|
      requires sent == before + PassCalls(notes[..i])
      requires sentAt == atBefore + stamps && |stamps| == 2 * i
      requires OnSchedule(notes, passStart, beatMs, stamps, i)
      modifies this`playing, this`clock, this`sent, this`sentAt
      ensures Valid() && passStart <= clock
      ensures turnedOff ==> turnedOn && playing
      ensures !turnedOff ==> !playing
      ensures turnedOff ==> sent == before + PassCalls(notes[..i + 1])
      ensures turnedOn && !turnedOff ==>
                sent + [NoteOff(notes[i].pitch)] == before + PassCalls(notes[..i + 1])
      ensures !turnedOn ==> sent == before + PassCalls(notes[..i])
      ensures sentAt == atBefore + stamps'
      ensures |stamps'| == (if turnedOff then 2 * i + 2 else if turnedOn then 2 * i + 1 else 2 * i)
      ensures OnSchedule(notes, passStart, beatMs, stamps', if turnedOff then i + 1 else i)
    {
      PassCallsNext(notes, i);
      ghost var d;
      turnedOn, turnedOff, d := DispatchNote(notes[i], passStart, beatMs);
      OnScheduleNext(notes, passStart, beatMs, stamps, i, d);
      Regroup(atBefore, stamps, d);
      stamps' := stamps + d;
    }

    /** The walk of one pass over the notes read at its start: each note is
        turned on at its start time and off at its end time, with `playing`
        checked after every wait. `started` is the number of notes turned
        on, `completed` says the walk reached the end of the list, and
        `activePitches` is the set the source keeps of pitches turned on and
        not yet off: empty, or the pitch of the one note the stop caught
        between its `noteOn` and its `noteOff`. `stamps` are the clock
        readings of the walk's calls, which meet the schedule counted from
        the clock reading at the start of the walk. */
    method WalkNotes(notes: seq<LoopNote>, beatMs: real)
      returns (started: nat, completed: bool, activePitches: set<Int32>, ghost stamps: seq<int>)
      requires Valid()
      modifies this`playing, this`clock, this`sent, this`sentAt
      ensures Valid() && old(clock) <= clock
      ensures started <= |notes|
      ensures completed ==> started == |notes| && activePitches == {}
      ensures playing ==> completed
      ensures activePitches == {} ==> sent == old(sent) + PassCalls(notes[..started])
      ensures activePitches != {} ==>
                0 < started && activePitches == {notes[started - 1].pitch} &&
                sent + [NoteOff(notes[started - 1].pitch)] == old(sent) + PassCalls(notes[..started])
      ensures sentAt == old(sentAt) + stamps
      ensures |stamps| == if activePitches == {} then 2 * started else 2 * started - 1
      ensures OnSchedule(notes, old(clock), beatMs, stamps, if activePitches == {} then started else started - 1)
    {
      var passStart := clock;
      activePitches := {};
      started, completed := 0, true;
      stamps := [];
      var i := 0;
      MaybePause();
      while i < |notes| && playing
        invariant 0 <= i <= |notes| && started == i && completed && activePitches == {}
        invariant Valid() && passStart <= clock
        invariant sent == old(sent) + PassCalls(notes[..i])
        invariant sentAt == old(sentAt) + stamps && |stamps| == 2 * i
        invariant OnSchedule(notes, passStart, beatMs, stamps, i)
      {
        var note := notes[i];
        var turnedOn, turnedOff;
        turnedOn, turnedOff, stamps := WalkStep(notes, i, old(sent), old(sentAt), passStart, beatMs, stamps);
        if turnedOn {
          activePitches := activePitches + {note.pitch};
          started := i + 1;
        }
        if !turnedOff {
          assert turnedOn ==> notes[started - 1] == note && activePitches == {note.pitch};
          completed := false;
          return;
        }
        activePitches := activePitches - {note.pitch};
        assert activePitches == {};
        i := i + 1;
        // The check at the top of the next iteration.
        MaybePause();
      }
      completed := i == |notes|;
    }

    /** One pass of the playback routine and its cleanup: the walk, then
        a `noteOff` for whatever is still marked active. `stamps` are the
        clock readings of the pass's calls, two per note turned on: each
        `noteOn` no earlier than its note's start time, and each `noteOff`
        sent by the walk (the first `offs` of them, all of them when the
        pass completed) no earlier than its note's end time. */
    method PlayPass(loop: Loop, beatMs: real)
      returns (started: nat, completed: bool, passStart: int, ghost offs: nat, ghost stamps: seq<int>)
      requires Valid()
      modifies this`playing, this`clock, this`sent, this`sentAt
      ensures Valid()
      ensures passStart == old(clock) <= clock
      ensures started <= |loop.notes|
      ensures sent == old(sent) + PassCalls(loop.notes[..started])
      ensures completed ==> started == |loop.notes|
      ensures playing ==> completed
      ensures sentAt == old(sentAt) + stamps && |stamps| == 2 * started
      ensures offs <= started <= offs + 1
      ensures completed ==> offs == started
      ensures OnSchedule(loop.notes, passStart, beatMs, stamps, offs)
    {
      passStart := clock;
      var notes := loop.GetNotes();
      var activePitches;
      ghost var walked, cleanup;
      started, completed, activePitches, walked := WalkNotes(notes, beatMs);
      offs := if activePitches == {} then started else started - 1;
      var order;
      order, cleanup := TurnOffAll(activePitches);
      Regroup(old(sentAt), walked, cleanup);
      if activePitches == {} {
        assert order == [] && walked + cleanup == walked;
      } else {
        SingleOrder(activePitches, order);
        assert cleanup == [cleanup[0]];
        OnScheduleCleanup(notes, passStart, beatMs, walked, offs, cleanup[0]);
      }
      stamps := walked + cleanup;
    }

    /** One iteration of the pass loop of `runPlaybackLoop`: a pass and its
        cleanup, the check after it, and, when still playing, the wait for
        the end of the loop's length counted from the pass start and the
        check at the top of the next iteration. */
    method PassThenWait(loop: Loop, beatMs: real, totalBeats: Int32)
      returns (started: nat, passStart: int, ghost offs: nat, ghost stamps: seq<int>)
      requires Valid()
      modifies this`playing, this`clock, this`sent, this`sentAt
      ensures Valid()
      ensures passStart == old(clock) <= clock
      ensures started <= |loop.notes|
      ensures sent == old(sent) + PassCalls(loop.notes[..started])
      ensures sentAt == old(sentAt) + stamps && |stamps| == 2 * started
      ensures offs <= started <= offs + 1
      ensures OnSchedule(loop.notes, passStart, beatMs, stamps, offs)
      ensures playing ==> started == |loop.notes| && offs == started
      ensures playing ==> passStart + LoopDurationMs(totalBeats, beatMs) <= clock
    {
      var completed;
      started, completed, passStart, offs, stamps := PlayPass(loop, beatMs);
      // The check after the cleanup.
      MaybePause();
      if !playing {
        return;
      }
      var loopDurationMs := LoopDurationMs(totalBeats, beatMs);
      SleepUntil(passStart + loopDurationMs);
      // The check at the top of the next iteration.
      MaybePause();
    }

    /** One more iteration of the pass loop keeps `Played`, with one more
        pass recorded. */
    method PlaybackStep(loop: Loop, beatMs: real, totalBeats: Int32, ghost before: seq<SinkCall>,
                        ghost atStart: seq<int>, ghost start: int, passStarts: seq<int>, startedPerPass: seq<nat>,
                        ghost offsPerPass: seq<nat>, ghost bases: seq<nat>, ghost stamps: seq<int>)
      returns (passStarts': seq<int>, startedPerPass': seq<nat>,
               ghost offsPerPass': seq<nat>, ghost bases': seq<nat>, ghost stamps': seq<int>)
      requires Valid() && playing
      requires Played(loop.notes, before, atStart, start, LoopDurationMs(totalBeats, beatMs), beatMs,
                      passStarts, startedPerPass, offsPerPass, bases, stamps, sent, sentAt, clock, true)
      modifies this`playing, this`clock, this`sent, this`sentAt
      ensures Valid()
      ensures Played(loop.notes, before, atStart, start, LoopDurationMs(totalBeats, beatMs), beatMs,
                     passStarts', startedPerPass', offsPerPass', bases', stamps', sent, sentAt, clock, playing)
      ensures |passStarts'| == |passStarts| + 1
    {
      ghost var trace, at, now := sent, sentAt, clock;
      var started, passStart;
      ghost var offs, passStamps;
      started, passStart, offs, passStamps := PassThenWait(loop, beatMs, totalBeats);
      PlayedExtended(loop.notes, before, atStart, start, LoopDurationMs(totalBeats, beatMs), beatMs,
                     passStarts, startedPerPass, offsPerPass, bases, stamps, trace, at, now,
                     passStart, started, offs, passStamps, sent, sentAt, clock, playing);
      passStarts', startedPerPass' := passStarts + [passStart], startedPerPass + [started];
      ghost var passBase: nat := |stamps|;
      offsPerPass', bases', stamps' := offsPerPass + [offs], bases + [passBase], stamps + passStamps;
    }

    /** `runPlaybackLoop(loop)`, the routine of the playback thread: fix the
        beat length and the beat total once, then play pass after pass while
        `playing` holds, each pass starting no earlier than the previous
        pass's start plus the loop's length. The source repeats until a
        stop; here at most `maxPasses` passes are played. `passStarts[k]` is
        the clock reading at the start of pass `k` and `startedPerPass[k]`
        the number of notes it turned on. The clock readings of the calls
        since the start are `stamps`, and pass `k`'s calls begin at index
        `bases[k]` of them, on schedule from `passStarts[k]` as `Timeline`
        states. */
    method RunPlaybackLoop(loop: Loop, maxPasses: nat)
      returns (passStarts: seq<int>, startedPerPass: seq<nat>,
               ghost offsPerPass: seq<nat>, ghost bases: seq<nat>, ghost stamps: seq<int>)
      requires Valid()
      modifies this`playing, this`clock, this`sent, this`sentAt
      ensures Valid() && old(clock) <= clock
      ensures |passStarts| == |startedPerPass| <= maxPasses
      ensures forall k :: 0 <= k < |startedPerPass| ==> startedPerPass[k] <= |loop.notes|
      ensures sent == old(sent) + Passes(loop.notes, startedPerPass)
      ensures forall k :: 0 <= k < |startedPerPass| - 1 ==> startedPerPass[k] == |loop.notes|
      ensures playing ==> |passStarts| == maxPasses
      ensures playing ==> forall k :: 0 <= k < |startedPerPass| ==> startedPerPass[k] == |loop.notes|
      ensures forall k :: 0 <= k < |passStarts| ==> old(clock) <= passStarts[k] <= clock
      ensures forall k :: 0 < k < |passStarts| ==>
                passStarts[k - 1] + LoopDurationMs(TotalBeats(loop.measures, beatsPerMeasure), BeatMs(bpm)) <= passStarts[k]
      ensures sentAt == old(sentAt) + stamps
      ensures Timeline(loop.notes, BeatMs(bpm), passStarts, startedPerPass, offsPerPass, bases, stamps, playing)
    {
      var beatDurationMs := BeatMs(bpm);
      var totalBeatsInLoop := TotalBeats(loop.GetMeasures(), beatsPerMeasure);
      passStarts, startedPerPass := [], [];
      offsPerPass, bases, stamps := [], [], [];
      MaybePause();
      PlayedNone(loop.notes, sent, sentAt, clock,
                 LoopDurationMs(totalBeatsInLoop, beatDurationMs), beatDurationMs, playing);
      while playing && |passStarts| < maxPasses
        invariant Valid()
        invariant Played(loop.notes, old(sent), old(sentAt), old(clock),
                         LoopDurationMs(totalBeatsInLoop, beatDurationMs), beatDurationMs,
                         passStarts, startedPerPass, offsPerPass, bases, stamps, sent, sentAt, clock, playing)
        invariant |passStarts| <= maxPasses
        decreases maxPasses - |passStarts|
      {
        passStarts, startedPerPass, offsPerPass, bases, stamps :=
          PlaybackStep(loop, beatDurationMs, totalBeatsInLoop, old(sent), old(sentAt), old(clock),
                       passStarts, startedPerPass, offsPerPass, bases, stamps);
      }
    }
  }
}
