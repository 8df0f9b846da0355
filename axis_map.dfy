/** The axis-to-button table of virtjs-btn as values: which axis codes the
    real device supports, the packed per-slot table that setup builds
    (struct vbtn and the uinput_user_dev axis arrays), and the per-event
    threshold state machine of the translation loop, with the properties
    they promise. The imperative program in module VirtjsBtn is proved
    against these functions. */
module AxisMap {
  import opened Evdev

  /** `struct vbtn`: the axis maximum, the press threshold, and the current
      button state (0 released, 1 pressed). */
  datatype VBtn = VBtn(max: int, thresh: int, state: int)

  /** A zero-filled (memset) table slot. */
  const Zero := VBtn(0, 0, 0)

  // ---------------------------------------------------------------------
  // Supported axes
  // ---------------------------------------------------------------------

  /** The axis codes below `n` that the device supports, ascending: the
      order in which the setup loops of virtjs-btn.c visit them. */
  function AxisCodes(axes: map<nat, AbsInfo>, n: nat): (r: seq<nat>)
    ensures |r| <= n
    ensures forall i :: 0 <= i < |r| ==> r[i] < n && r[i] in axes
    ensures forall i, j :: 0 <= i < j < |r| ==> r[i] < r[j]
  {
    if n == 0 then []
    else
      var rest := AxisCodes(axes, n - 1);
      if n - 1 in axes then rest + [n - 1] else rest
  }

  /** Every supported axis code below `n` is listed. */
  lemma {:induction false} AxisCodesComplete(axes: map<nat, AbsInfo>, n: nat, x: nat)
    requires x < n && x in axes
    ensures x in AxisCodes(axes, n)
  {
    if x < n - 1 {
      AxisCodesComplete(axes, n - 1, x);
    }
  }

  /** The set of supported axis codes in [0, ABS_CNT). */
  function SupportedAxes(axes: map<nat, AbsInfo>): set<nat>
  {
    Below(axes, ABS_CNT)
  }

  /** The number of supported axis codes below `n` is the length of their
      ascending list. */
  lemma {:induction false} AxisCodesCount(axes: map<nat, AbsInfo>, n: nat)
    ensures |AxisCodes(axes, n)| == |Below(axes, n)|
  {
    if n == 0 {
      assert Below(axes, n) == {};
    } else {
      AxisCodesCount(axes, n - 1);
      if n - 1 in axes {
        assert Below(axes, n) == Below(axes, n - 1) + {n - 1};
        assert n - 1 !in Below(axes, n - 1);
      } else {
        assert Below(axes, n) == Below(axes, n - 1);
      }
    }
  }

  /** The supported axis codes below `n`. */
  function Below(axes: map<nat, AbsInfo>, n: nat): set<nat>
  {
    set x: nat | x < n && x in axes
  }

  // ---------------------------------------------------------------------
  // Threshold
  // ---------------------------------------------------------------------

  /** `(signed int)(max * 0.1)`: a tenth of the maximum, truncated toward
      zero as C's floating-to-integer conversion does. */
  function Threshold(max: int): (t: int)
    ensures max >= 0 ==> 0 <= t && 10 * t <= max < 10 * t + 10
    ensures max < 0 ==> t <= 0 && 10 * t - 10 < max <= 10 * t
  {
    if max >= 0 then max / 10 else -((-max) / 10)
  }

  /** The state an axis value selects: pressed exactly when the value is
      strictly above the threshold. */
  function NewState(value: int, thresh: int): int
  {
    if value > thresh then 1 else 0
  }

  // ---------------------------------------------------------------------
  // The table setup builds
  // ---------------------------------------------------------------------

  /** The slot for an axis with maximum `max`: released, threshold a tenth. */
  function Armed(max: int): VBtn
  {
    VBtn(max, Threshold(max), 0)
  }

  /** The uinput_user_dev axis parameters as setup fills them: slot k holds
      the k-th supported axis's parameters, the rest stay zero. */
  function PackedAbs(axes: map<nat, AbsInfo>): (r: seq<AbsInfo>)
    ensures |r| == ABS_CNT
  {
    var codes := AxisCodes(axes, ABS_CNT);
    seq(ABS_CNT, k requires 0 <= k < ABS_CNT =>
      if k < |codes| then axes[codes[k]] else NoAbs)
  }

  /** The vbtns table as setup leaves it: slot k armed with the maximum of
      the k-th supported axis, the rest zero. */
  function InitialTable(axes: map<nat, AbsInfo>): (r: seq<VBtn>)
    ensures |r| == ABS_CNT
  {
    var codes := AxisCodes(axes, ABS_CNT);
    seq(ABS_CNT, k requires 0 <= k < ABS_CNT =>
      if k < |codes| then Armed(axes[codes[k]].maximum) else Zero)
  }

  /** Every button state is released or pressed. */
  predicate Binary(tbl: seq<VBtn>)
  {
    forall k :: 0 <= k < |tbl| ==> tbl[k].state == 0 || tbl[k].state == 1
  }

  /** The table setup builds: one slot per supported axis, packed at the
      front in ascending axis order, with that axis's maximum and a tenth of
      it as threshold; every slot released; the rest zero. */
  lemma InitialTableSlots(axes: map<nat, AbsInfo>)
    ensures Binary(InitialTable(axes))
    ensures forall k :: 0 <= k < ABS_CNT ==> InitialTable(axes)[k].state == 0
    ensures forall k :: 0 <= k < |AxisCodes(axes, ABS_CNT)| ==>
      var info := axes[AxisCodes(axes, ABS_CNT)[k]];
      InitialTable(axes)[k].max == info.maximum == PackedAbs(axes)[k].maximum &&
      InitialTable(axes)[k].thresh == Threshold(info.maximum)
    ensures forall k :: |SupportedAxes(axes)| <= k < ABS_CNT ==>
      InitialTable(axes)[k] == Zero && PackedAbs(axes)[k] == NoAbs
  {
    AxisCodesCount(axes, ABS_CNT);
  }

  // ---------------------------------------------------------------------
  // The per-event state machine
  // ---------------------------------------------------------------------

  /** Whether an event drives its axis's button across the threshold. */
  predicate Crosses(tbl: seq<VBtn>, ev: Event)
    requires |tbl| == ABS_CNT && InRange(ev)
  {
    ev.evType == EV_ABS && tbl[ev.code].state != NewState(ev.value, tbl[ev.code].thresh)
  }

  /** The synthetic key event for `ev`: the axis's button, the new state,
      the original event's time. */
  function KeyEvent(ev: Event, state: S32): Event
    requires ev.code < ABS_CNT
  {
    Event(EV_KEY, BTN_TRIGGER + ev.code, state, ev.time)
  }

  /** The table after one event of the translation loop. */
  function Step(tbl: seq<VBtn>, ev: Event): (r: seq<VBtn>)
    requires |tbl| == ABS_CNT && InRange(ev)
    ensures |r| == ABS_CNT
  {
    if Crosses(tbl, ev) then
      tbl[ev.code := tbl[ev.code].(state := NewState(ev.value, tbl[ev.code].thresh))]
    else tbl
  }

  /** What one event of the translation loop writes to the virtual device. */
  function Emit(tbl: seq<VBtn>, ev: Event): seq<Event>
    requires |tbl| == ABS_CNT && InRange(ev)
  {
    if Crosses(tbl, ev) then [KeyEvent(ev, NewState(ev.value, tbl[ev.code].thresh)), ev]
    else [ev]
  }

  datatype Pumped = Pumped(table: seq<VBtn>, out: seq<Event>)

  /** The translation loop run over `evs` in arrival order: the final table
      and everything written to the virtual device. */
  function Pump(tbl: seq<VBtn>, evs: seq<Event>): (r: Pumped)
    requires |tbl| == ABS_CNT && AllInRange(evs)
    ensures |r.table| == ABS_CNT
  {
    if evs == [] then Pumped(tbl, [])
    else
      var prev := Pump(tbl, evs[..|evs| - 1]);
      var ev := evs[|evs| - 1];
      Pumped(Step(prev.table, ev), prev.out + Emit(prev.table, ev))
  }

  // ---------------------------------------------------------------------
  // Properties of the state machine
  // ---------------------------------------------------------------------

  /** The loop only ever changes button states, and they stay 0 or 1. */
  lemma {:induction false} PumpKeepsLimits(tbl: seq<VBtn>, evs: seq<Event>)
    requires |tbl| == ABS_CNT && AllInRange(evs)
    ensures forall k :: 0 <= k < ABS_CNT ==>
      Pump(tbl, evs).table[k].max == tbl[k].max && Pump(tbl, evs).table[k].thresh == tbl[k].thresh
    ensures Binary(tbl) ==> Binary(Pump(tbl, evs).table)
  {
    if evs != [] {
      PumpKeepsLimits(tbl, evs[..|evs| - 1]);
    }
  }

  /** One event writes either itself alone, or a synthetic key event
      followed by itself; the key event comes exactly when an axis event's
      strict-threshold state differs from the stored one, carries the
      button BTN_TRIGGER + code, the new state and the original time, and
      the stored state becomes that new state. Nothing else changes. */
  lemma EmitShape(tbl: seq<VBtn>, ev: Event)
    requires |tbl| == ABS_CNT && InRange(ev)
    ensures Emit(tbl, ev)[|Emit(tbl, ev)| - 1] == ev
    ensures |Emit(tbl, ev)| == 2 <==>
      ev.evType == EV_ABS && tbl[ev.code].state != (if ev.value > tbl[ev.code].thresh then 1 else 0)
    ensures |Emit(tbl, ev)| == 1 || |Emit(tbl, ev)| == 2
    ensures |Emit(tbl, ev)| == 2 ==>
      var key := Emit(tbl, ev)[0];
      key.evType == EV_KEY && key.code == BTN_TRIGGER + ev.code && key.time == ev.time &&
      (key.value == 1 <==> ev.value > tbl[ev.code].thresh) &&
      (key.value == 0 || key.value == 1) &&
      key.value != tbl[ev.code].state &&
      Step(tbl, ev)[ev.code].state == key.value
    ensures forall k :: 0 <= k < ABS_CNT && !(ev.evType == EV_ABS && k == ev.code) ==>
      Step(tbl, ev)[k] == tbl[k]
    ensures ev.evType == EV_ABS ==>
      Step(tbl, ev)[ev.code].state == (if ev.value > tbl[ev.code].thresh then 1 else 0)
  {
  }

  /** Running the loop over `a` then `b` is running it over `a + b`: the
      state carries over from one batch of events to the next. */
  lemma {:induction false} PumpAppend(tbl: seq<VBtn>, a: seq<Event>, b: seq<Event>)
    requires |tbl| == ABS_CNT && AllInRange(a) && AllInRange(b)
    ensures AllInRange(a + b)
    ensures var p := Pump(tbl, a); var q := Pump(p.table, b);
      Pump(tbl, a + b) == Pumped(q.table, p.out + q.out)
  {
    AllInRangeAppend(a, b);
    var p := Pump(tbl, a);
    if b == [] {
      assert a + b == a;
    } else {
      var b', ev := b[..|b| - 1], b[|b| - 1];
      AllInRangeAppend(b', [ev]);
      PumpAppend(tbl, a, b');
      assert (a + b)[..|a + b| - 1] == a + b';
      var q' := Pump(p.table, b');
      var e := Emit(q'.table, ev);
      assert (p.out + q'.out) + e == p.out + (q'.out + e);
    }
  }

  lemma AllInRangeAppend(a: seq<Event>, b: seq<Event>)
    ensures AllInRange(a + b) <==> AllInRange(a) && AllInRange(b)
  {
    assert forall i :: 0 <= i < |a| ==> (a + b)[i] == a[i];
    assert forall i :: 0 <= i < |b| ==> (a + b)[|a| + i] == b[i];
  }

  /** Pass-through is complete: the loop writes every input event unchanged
      and in order, and everything else it writes is a key event; so for a
      device that reports no key events, dropping the key events from the
      output gives back exactly the input. */
  lemma {:induction false} PassThrough(tbl: seq<VBtn>, evs: seq<Event>)
    requires |tbl| == ABS_CNT && AllInRange(evs)
    requires forall i :: 0 <= i < |evs| ==> evs[i].evType != EV_KEY
    ensures NonKey(Pump(tbl, evs).out) == evs
  {
    if evs != [] {
      var init, ev := evs[..|evs| - 1], evs[|evs| - 1];
      assert evs == init + [ev];
      AllInRangeAppend(init, [ev]);
      assert forall i :: 0 <= i < |init| ==> init[i] == evs[i];
      PassThrough(tbl, init);
      var prev := Pump(tbl, init);
      assert Pump(tbl, evs).out == prev.out + Emit(prev.table, ev);
      NonKeyAppend(prev.out, Emit(prev.table, ev));
      NonKeyEmit(prev.table, ev);
    }
  }

  /** Of what one non-key event writes, only the event itself is not a key. */
  lemma NonKeyEmit(tbl: seq<VBtn>, ev: Event)
    requires |tbl| == ABS_CNT && InRange(ev) && ev.evType != EV_KEY
    ensures NonKey(Emit(tbl, ev)) == [ev]
  {
    assert [ev][..0] == [];
    if Crosses(tbl, ev) {
      var key := KeyEvent(ev, NewState(ev.value, tbl[ev.code].thresh));
      assert [key][..0] == [];
      assert NonKey([key]) == [];
      assert [key, ev][..1] == [key];
    }
  }

  lemma {:induction false} NonKeyAppend(a: seq<Event>, b: seq<Event>)
    ensures NonKey(a + b) == NonKey(a) + NonKey(b)
  {
    if b != [] {
      NonKeyAppend(a, b[..|b| - 1]);
      assert (a + b)[..|a + b| - 1] == a + b[..|b| - 1];
    } else {
      assert a + b == a;
    }
  }

  /** An axis's slot is left alone by every event that is not an axis event
      on that axis; in particular non-axis events never touch the table. */
  lemma {:induction false} PumpKeepsOtherAxes(tbl: seq<VBtn>, evs: seq<Event>, c: nat)
    requires |tbl| == ABS_CNT && AllInRange(evs) && c < ABS_CNT
    requires forall i :: 0 <= i < |evs| ==> !(evs[i].evType == EV_ABS && evs[i].code == c)
    ensures Pump(tbl, evs).table[c] == tbl[c]
  {
    if evs != [] {
      PumpKeepsOtherAxes(tbl, evs[..|evs| - 1], c);
    }
  }

  /** No redundant events: after an axis event, a later event on the same
      axis whose value falls on the same side of the threshold writes only
      itself, whatever events for other axes or of other types came in
      between. */
  lemma NoRedundantKey(tbl: seq<VBtn>, e1: Event, mid: seq<Event>, e2: Event)
    requires |tbl| == ABS_CNT && AllInRange(mid)
    requires e1.evType == EV_ABS && e2.evType == EV_ABS && e1.code == e2.code < ABS_CNT
    requires forall i :: 0 <= i < |mid| ==> !(mid[i].evType == EV_ABS && mid[i].code == e1.code)
    requires (e1.value > tbl[e1.code].thresh) == (e2.value > tbl[e1.code].thresh)
    ensures AllInRange([e1] + mid + [e2])
    ensures Pump(tbl, [e1] + mid + [e2]).out ==
      Pump(tbl, [e1] + mid).out + [e2]
  {
    var s := [e1] + mid;
    assert AllInRange(s) by {
      forall i | 0 <= i < |s| ensures InRange(s[i]) {
        if i > 0 { assert s[i] == mid[i - 1]; }
      }
    }
    assert AllInRange(s + [e2]) by {
      forall i | 0 <= i < |s + [e2]| ensures InRange((s + [e2])[i]) {
        if i < |s| { assert (s + [e2])[i] == s[i]; }
      }
    }
    assert [e1] + mid + [e2] == s + [e2];
    assert (s + [e2])[..|s|] == s;
    var after1 := Pump(tbl, [e1]);
    assert [e1][..0] == [];
    PumpAppend(tbl, [e1], mid);
    PumpKeepsOtherAxes(after1.table, mid, e1.code);
  }

  /** Threshold boundary for an 8-bit axis: maximum 255 gives threshold 25;
      value 25 leaves the button released and 26 presses it. */
  lemma ThresholdBoundary()
    ensures Threshold(255) == 25
    ensures NewState(25, Threshold(255)) == 0 && NewState(26, Threshold(255)) == 1
  {
  }
}
