/** The program virtjs-btn (`main` of src/virtjs-btn.c): refuse devices that
    already have keys or have no absolute axes; count the supported axes and
    declare one button per axis; pack the axis parameters and thresholds
    into the uinput record and the vbtns table; create the virtual device;
    then translate every batch of events the real device delivers. */
module VirtjsBtn {
  import opened Evdev
  import opened AxisMap
  import opened Uinput

  datatype Option<T> = None | Some(value: T)

  /** How a run ends. HasButtons and NoAbsAxes are the two refusals;
      Stopped is the clean end of the event loop (hangup or interrupt). */
  datatype Exit = HasButtons | NoAbsAxes | NoUinput | CreateFailed | Stopped

  // ---------------------------------------------------------------------
  // Device refusal
  // ---------------------------------------------------------------------

  /** Why the real device is refused, if it is: a device with key events
      needs no synthetic buttons, one without absolute axes has nothing to
      threshold; the key check is made first. */
  function Refusal(dev: RealDevice): (r: Option<Exit>)
    ensures r == Some(HasButtons) <==> EV_KEY in dev.evTypes
    ensures r == Some(NoAbsAxes) <==> EV_KEY !in dev.evTypes && EV_ABS !in dev.evTypes
    ensures r == None <==> EV_KEY !in dev.evTypes && EV_ABS in dev.evTypes
  {
    if EV_KEY in dev.evTypes then Some(HasButtons)
    else if EV_ABS !in dev.evTypes then Some(NoAbsAxes)
    else None
  }

  // ---------------------------------------------------------------------
  // The virtual device's description
  // ---------------------------------------------------------------------

  /** "Virtual " followed by the real device's name, cut to the size of the
      uinput name buffer as strncpy does. */
  function VirtualName(name: string): (r: string)
    ensures |r| == if 8 + |name| <= UINPUT_MAX_NAME_SIZE then 8 + |name| else UINPUT_MAX_NAME_SIZE
    ensures r <= "Virtual " + name
    ensures r[..8] == "Virtual "
  {
    var full := "Virtual " + name;
    if |full| <= UINPUT_MAX_NAME_SIZE then full else full[..UINPUT_MAX_NAME_SIZE]
  }

  /** The uinput record written before UI_DEV_CREATE. */
  function VirtualSetup(dev: RealDevice): UserDev
  {
    UserDev(VirtualName(dev.name), BUS_VIRTUAL, dev.vendor, dev.product, 1, PackedAbs(dev.axes))
  }

  /** UI_SET_KEYBIT for buttons BTN_TRIGGER + 0 .. BTN_TRIGGER + n - 1. */
  function ButtonBits(n: nat): seq<Decl>
  {
    seq(n, i => KeyBit(BTN_TRIGGER + i))
  }

  /** UI_SET_ABSBIT for each of `codes`, in order. */
  function AxisBits(codes: seq<nat>): seq<Decl>
  {
    seq(|codes|, k requires 0 <= k < |codes| => AbsBit(codes[k]))
  }

  /** Every capability ioctl of a run that gets past the refusals, in order. */
  function DeclaredBits(axes: map<nat, AbsInfo>): seq<Decl>
  {
    var codes := AxisCodes(axes, ABS_CNT);
    [EvBit(EV_SYN), EvBit(EV_KEY)] + ButtonBits(|codes|)
      + [EvBit(EV_ABS), EvBit(EV_MSC), MscBit(MSC_SCAN)] + AxisBits(codes)
  }

  /** The virtual device declares event types SYN, KEY, ABS and MSC, the
      scan-code MSC bit, exactly the buttons BTN_TRIGGER + 0 ..
      BTN_TRIGGER + abs_cnt - 1, and exactly the supported axes. */
  lemma DeclaredCapabilities(axes: map<nat, AbsInfo>)
    ensures forall t :: EvBit(t) in DeclaredBits(axes) <==>
      t == EV_SYN || t == EV_KEY || t == EV_ABS || t == EV_MSC
    ensures forall m :: MscBit(m) in DeclaredBits(axes) <==> m == MSC_SCAN
    ensures forall c :: KeyBit(c) in DeclaredBits(axes) <==>
      BTN_TRIGGER <= c < BTN_TRIGGER + |SupportedAxes(axes)|
    ensures forall c: nat :: AbsBit(c) in DeclaredBits(axes) <==> c in SupportedAxes(axes)
  {
    AxisCodesCount(axes, ABS_CNT);
    forall t ensures EvBit(t) in DeclaredBits(axes) <==>
      t == EV_SYN || t == EV_KEY || t == EV_ABS || t == EV_MSC
    {
      DeclaredBitIs(axes, EvBit(t));
    }
    forall m ensures MscBit(m) in DeclaredBits(axes) <==> m == MSC_SCAN {
      DeclaredBitIs(axes, MscBit(m));
    }
    forall c ensures KeyBit(c) in DeclaredBits(axes) <==>
      BTN_TRIGGER <= c < BTN_TRIGGER + |SupportedAxes(axes)|
    {
      DeclaredBitIs(axes, KeyBit(c));
    }
    forall c: nat ensures AbsBit(c) in DeclaredBits(axes) <==> c in SupportedAxes(axes) {
      DeclaredBitIs(axes, AbsBit(c));
    }
  }

  lemma DeclaredBitIs(axes: map<nat, AbsInfo>, d: Decl)
    ensures d in DeclaredBits(axes) <==>
      d == EvBit(EV_SYN) || d == EvBit(EV_KEY) || d == EvBit(EV_ABS) || d == EvBit(EV_MSC) ||
      d == MscBit(MSC_SCAN) ||
      (d.KeyBit? && BTN_TRIGGER <= d.key < BTN_TRIGGER + |AxisCodes(axes, ABS_CNT)|) ||
      (d.AbsBit? && 0 <= d.axis && d.axis in SupportedAxes(axes))
  {
    var codes := AxisCodes(axes, ABS_CNT);
    var head := [EvBit(EV_SYN), EvBit(EV_KEY)];
    var mid := [EvBit(EV_ABS), EvBit(EV_MSC), MscBit(MSC_SCAN)];
    assert DeclaredBits(axes) == head + ButtonBits(|codes|) + mid + AxisBits(codes);
    ButtonBitsAre(|codes|);
    AxisBitsAre(axes);
  }

  lemma ButtonBitsAre(n: nat)
    ensures forall d :: d in ButtonBits(n) <==> d.KeyBit? && BTN_TRIGGER <= d.key < BTN_TRIGGER + n
  {
    forall c | BTN_TRIGGER <= c < BTN_TRIGGER + n ensures KeyBit(c) in ButtonBits(n) {
      assert ButtonBits(n)[c - BTN_TRIGGER] == KeyBit(c);
    }
  }

  lemma AxisBitsAre(axes: map<nat, AbsInfo>)
    ensures forall d :: d in AxisBits(AxisCodes(axes, ABS_CNT)) <==>
      d.AbsBit? && 0 <= d.axis && d.axis in SupportedAxes(axes)
  {
    var codes := AxisCodes(axes, ABS_CNT);
    forall c: nat | c in SupportedAxes(axes) ensures AbsBit(c) in AxisBits(codes) {
      AxisCodesComplete(axes, ABS_CNT, c);
      var k :| 0 <= k < |codes| && codes[k] == c;
      assert AxisBits(codes)[k] == AbsBit(c);
    }
  }

  // ---------------------------------------------------------------------
  // Counting the axes
  // ---------------------------------------------------------------------

  /** The counting loop: abs_cnt is the number of axis codes in
      [0, ABS_CNT) the real device supports (so it fits in an unsigned
      short). */
  method CountAxes(dev: RealDevice) returns (absCnt: nat)
    ensures absCnt == |SupportedAxes(dev.axes)|
    ensures absCnt <= ABS_CNT
  {
    absCnt := 0;
    for i := 0 to ABS_CNT
      invariant absCnt == |AxisCodes(dev.axes, i)|
    {
      if i in dev.axes {
        absCnt := absCnt + 1;
      }
    }
    AxisCodesCount(dev.axes, ABS_CNT);
  }

  // ---------------------------------------------------------------------
  // The vbtns table
  // ---------------------------------------------------------------------

  /** `struct vbtn vbtns[ABS_CNT]` and the code that updates it. */
  class ButtonTable {
    const vbtns: array<VBtn>

    ghost predicate Valid()
      reads this, vbtns
    {
      vbtns.Length == ABS_CNT && Binary(vbtns[..])
    }

    /** The table zero-filled by memset. */
    constructor ()
      ensures Valid() && fresh(vbtns)
      ensures forall k :: 0 <= k < ABS_CNT ==> vbtns[k] == Zero
    {
      vbtns := new VBtn[ABS_CNT](_ => Zero);
    }

    /** The build loop: walks the axis codes in ascending order and, for the
        j-th supported one, declares it, copies its parameters into slot j
        of the uinput record and arms slot j of the table with its maximum
        and a tenth of it. */
    method Fill(dev: RealDevice, abs: array<AbsInfo>, ui: UinputDev) returns (j: nat)
      requires Valid() && abs.Length == ABS_CNT
      requires forall k :: 0 <= k < ABS_CNT ==> vbtns[k] == Zero && abs[k] == NoAbs
      modifies vbtns, abs, ui`bits
      ensures Valid()
      ensures j == |SupportedAxes(dev.axes)|
      ensures vbtns[..] == InitialTable(dev.axes)
      ensures abs[..] == PackedAbs(dev.axes)
      ensures ui.bits == old(ui.bits) + AxisBits(AxisCodes(dev.axes, ABS_CNT))
    {
      j := 0;
      for i := 0 to ABS_CNT
        invariant j == |AxisCodes(dev.axes, i)| <= i
        invariant forall k :: 0 <= k < j ==>
          var info := dev.axes[AxisCodes(dev.axes, i)[k]];
          abs[k] == info && vbtns[k] == Armed(info.maximum)
        invariant forall k :: j <= k < ABS_CNT ==> vbtns[k] == Zero && abs[k] == NoAbs
        invariant ui.bits == old(ui.bits) + AxisBits(AxisCodes(dev.axes, i))
      {
        if i in dev.axes {
          ui.SetBit(AbsBit(i));
          abs[j] := dev.axes[i];
          vbtns[j] := vbtns[j].(max := abs[j].maximum, thresh := Threshold(abs[j].maximum));
          j := j + 1;
        }
      }
      AxisCodesCount(dev.axes, ABS_CNT);
      assert vbtns[..] == InitialTable(dev.axes);
      assert abs[..] == PackedAbs(dev.axes);
    }

    /** One pass of the inner event loop: an axis event compares its value
        with its slot's threshold and, on a change of state, stores the new
        state and writes a key event; then the event itself is written. */
    method Translate(ev: Event, ui: UinputDev)
      requires Valid() && InRange(ev)
      modifies vbtns, ui`events
      ensures Valid()
      ensures vbtns[..] == Step(old(vbtns[..]), ev)
      ensures ui.events == old(ui.events) + Emit(old(vbtns[..]), ev)
    {
      if ev.evType == EV_ABS {
        var newState := if ev.value > vbtns[ev.code].thresh then 1 else 0;
        if vbtns[ev.code].state != newState {
          vbtns[ev.code] := vbtns[ev.code].(state := newState);
          ui.WriteEvent(Event(EV_KEY, BTN_TRIGGER + ev.code, newState, ev.time));
        }
      }
      ui.WriteEvent(ev);
    }

    /** The inner event loop over one batch of events, in arrival order. */
    method Drain(evs: seq<Event>, ui: UinputDev)
      requires Valid() && AllInRange(evs)
      modifies vbtns, ui`events
      ensures Valid()
      ensures vbtns[..] == Pump(old(vbtns[..]), evs).table
      ensures ui.events == old(ui.events) + Pump(old(vbtns[..]), evs).out
    {
      var i := 0;
      while i < |evs|
        invariant 0 <= i <= |evs| && Valid()
        invariant AllInRange(evs[..i])
        invariant vbtns[..] == Pump(old(vbtns[..]), evs[..i]).table
        invariant ui.events == old(ui.events) + Pump(old(vbtns[..]), evs[..i]).out
      {
        assert evs[..i + 1][..i] == evs[..i];
        Translate(evs[i], ui);
        i := i + 1;
      }
      assert evs[..i] == evs;
    }
  }

  // ---------------------------------------------------------------------
  // The whole run
  // ---------------------------------------------------------------------

  /** The button declaration loop: UI_SET_KEYBIT for BTN_TRIGGER + i, for
      each i below abs_cnt. */
  method DeclareButtons(ui: UinputDev, absCnt: nat)
    modifies ui`bits
    ensures ui.bits == old(ui.bits) + ButtonBits(absCnt)
  {
    for i := 0 to absCnt
      invariant ui.bits == old(ui.bits) + ButtonBits(i)
    {
      ui.SetBit(KeyBit(BTN_TRIGGER + i));
    }
  }

  /** Describe the virtual device: declare SYN and KEY, one button per
      supported axis, ABS, MSC and the scan code; build the table and the
      axis parameters; write the uinput record. */
  method Describe(dev: RealDevice, ui: UinputDev) returns (table: ButtonTable)
    requires ui.bits == [] && ui.setup == []
    modifies ui`bits, ui`setup
    ensures fresh(table) && fresh(table.vbtns) && table.Valid()
    ensures table.vbtns[..] == InitialTable(dev.axes)
    ensures ui.bits == DeclaredBits(dev.axes) && ui.setup == [VirtualSetup(dev)]
  {
    var name := VirtualName(dev.name);
    var absCnt := CountAxes(dev);
    AxisCodesCount(dev.axes, ABS_CNT);

    ui.SetBit(EvBit(EV_SYN));
    ui.SetBit(EvBit(EV_KEY));
    DeclareButtons(ui, absCnt);
    ui.SetBit(EvBit(EV_ABS));
    ui.SetBit(EvBit(EV_MSC));
    ui.SetBit(MscBit(MSC_SCAN));
    ghost var declared := ui.bits;
    assert declared == [EvBit(EV_SYN), EvBit(EV_KEY)] + ButtonBits(absCnt)
      + [EvBit(EV_ABS), EvBit(EV_MSC), MscBit(MSC_SCAN)];

    table := new ButtonTable();
    var abs := new AbsInfo[ABS_CNT](_ => NoAbs);
    var j := table.Fill(dev, abs, ui);
    assert ui.bits == declared + AxisBits(AxisCodes(dev.axes, ABS_CNT));
    ui.WriteSetup(UserDev(name, BUS_VIRTUAL, dev.vendor, dev.product, 1, abs[..]));
  }

  /** The poll loop: each wake-up drains one batch of events through the
      table; the loop ends at hangup or interrupt, after the last batch. */
  method Serve(table: ButtonTable, ui: UinputDev, batches: seq<seq<Event>>)
    requires table.Valid()
    requires forall b :: 0 <= b < |batches| ==> AllInRange(batches[b])
    modifies table.vbtns, ui`events
    ensures table.Valid() && AllInRange(Flatten(batches))
    ensures table.vbtns[..] == Pump(old(table.vbtns[..]), Flatten(batches)).table
    ensures ui.events == old(ui.events) + Pump(old(table.vbtns[..]), Flatten(batches)).out
  {
    ghost var init := table.vbtns[..];
    var b := 0;
    while b < |batches|
      invariant 0 <= b <= |batches| && table.Valid()
      invariant AllInRange(Flatten(batches[..b]))
      invariant table.vbtns[..] == Pump(init, Flatten(batches[..b])).table
      invariant ui.events == old(ui.events) + Pump(init, Flatten(batches[..b])).out
    {
      assert batches[..b + 1][..b] == batches[..b];
      assert Flatten(batches[..b + 1]) == Flatten(batches[..b]) + batches[b];
      PumpAppend(init, Flatten(batches[..b]), batches[b]);
      table.Drain(batches[b], ui);
      b := b + 1;
    }
    assert batches[..b] == batches;
  }

  /** `main` from the capability checks to the end of the poll loop.
      `uinputOpens` and `createAccepted` are the answers of open("/dev/uinput")
      and ioctl(UI_DEV_CREATE); `batches` are the groups of events the real
      device delivers on each wake-up before hangup or interrupt, each of a
      type the device declares. */
  method Run(dev: RealDevice, ui: UinputDev, uinputOpens: bool, createAccepted: bool,
             batches: seq<seq<Event>>) returns (exit: Exit)
    requires ui.bits == [] && ui.setup == [] && !ui.created && ui.events == []
    requires forall b :: 0 <= b < |batches| ==> AllInRange(batches[b])
    requires forall b :: 0 <= b < |batches| ==> OfTypes(batches[b], dev.evTypes)
    modifies ui
    ensures Refusal(dev) != None ==> Some(exit) == Refusal(dev)
    ensures exit == NoUinput <==> Refusal(dev) == None && !uinputOpens
    ensures exit == CreateFailed <==> Refusal(dev) == None && uinputOpens && !createAccepted
    ensures exit == Stopped <==> Refusal(dev) == None && uinputOpens && createAccepted
    ensures exit in {HasButtons, NoAbsAxes, NoUinput} ==>
      ui.bits == [] && ui.setup == [] && !ui.created && ui.events == []
    ensures exit in {CreateFailed, Stopped} ==>
      ui.bits == DeclaredBits(dev.axes) && ui.setup == [VirtualSetup(dev)]
    ensures exit == CreateFailed ==> !ui.created && ui.events == []
    ensures exit == Stopped ==>
      ui.created && AllInRange(Flatten(batches)) &&
      ui.events == Pump(InitialTable(dev.axes), Flatten(batches)).out
    ensures exit == Stopped ==> NonKey(ui.events) == Flatten(batches)
  {
    var refusal := Refusal(dev);
    if refusal.Some? {
      return refusal.value;
    }
    if !uinputOpens {
      return NoUinput;
    }
    var table := Describe(dev, ui);
    var ok := ui.Create(createAccepted);
    if !ok {
      return CreateFailed;
    }
    Serve(table, ui, batches);
    FlattenOfTypes(batches, dev.evTypes);
    PassThrough(InitialTable(dev.axes), Flatten(batches));
    return Stopped;
  }
}

/** Setup packs the supported axes into slots 0 .. abs_cnt - 1 and declares
    buttons by slot, while the event loop indexes vbtns and names buttons by
    the raw axis code. This module shows when the two agree. */
module SlotCodes {
  import opened Evdev
  import opened AxisMap
  import opened Uinput
  import opened VirtjsBtn

  /** The supported axes are exactly 0 .. abs_cnt - 1: every supported code
      is below their number. */
  predicate Contiguous(axes: map<nat, AbsInfo>)
  {
    forall c: nat :: c in SupportedAxes(axes) ==> c < |SupportedAxes(axes)|
  }

  /** A strictly ascending list of naturals all below its length is
      0, 1, 2, .... */
  lemma {:induction false} DenseAscending(s: seq<nat>, k: nat)
    requires forall i, j :: 0 <= i < j < |s| ==> s[i] < s[j]
    requires forall i :: 0 <= i < |s| ==> s[i] < |s|
    requires k < |s|
    ensures s[k] == k
  {
    AtLeastIndex(s, k);
    AtMostIndex(s, k);
  }

  lemma {:induction false} AtLeastIndex(s: seq<nat>, k: nat)
    requires forall i, j :: 0 <= i < j < |s| ==> s[i] < s[j]
    requires k < |s|
    ensures s[k] >= k
  {
    if k > 0 {
      AtLeastIndex(s, k - 1);
    }
  }

  lemma {:induction false} AtMostIndex(s: seq<nat>, k: nat)
    requires forall i, j :: 0 <= i < j < |s| ==> s[i] < s[j]
    requires forall i :: 0 <= i < |s| ==> s[i] < |s|
    requires k < |s|
    ensures s[k] <= k
    decreases |s| - k
  {
    if k < |s| - 1 {
      AtMostIndex(s, k + 1);
    }
  }

  /** The button the event loop emits for a supported axis is a declared
      button for every supported axis exactly when the axes are contiguous;
      and then the slot the loop reads for that axis holds that axis's own
      maximum and threshold, and the uinput record's slot holds its own
      parameters. */
  lemma SlotsAgree(axes: map<nat, AbsInfo>)
    ensures Contiguous(axes) <==>
      forall c: nat :: c in SupportedAxes(axes) ==> KeyBit(BTN_TRIGGER + c) in DeclaredBits(axes)
    ensures Contiguous(axes) ==>
      forall c: nat :: c in SupportedAxes(axes) ==>
        InitialTable(axes)[c] == Armed(axes[c].maximum) && PackedAbs(axes)[c] == axes[c]
  {
    DeclaredCapabilities(axes);
    var codes := AxisCodes(axes, ABS_CNT);
    AxisCodesCount(axes, ABS_CNT);
    if Contiguous(axes) {
      forall c: nat | c in SupportedAxes(axes)
        ensures InitialTable(axes)[c] == Armed(axes[c].maximum) && PackedAbs(axes)[c] == axes[c]
      {
        assert forall i :: 0 <= i < |codes| ==> codes[i] in SupportedAxes(axes);
        DenseAscending(codes, c);
      }
    }
  }

  /** An axis whose code is not below abs_cnt reads a zero slot (threshold
      0) and emits a button that was never declared. */
  lemma SlotMismatch(axes: map<nat, AbsInfo>, c: nat)
    requires c in SupportedAxes(axes) && c >= |SupportedAxes(axes)|
    ensures InitialTable(axes)[c] == Zero && PackedAbs(axes)[c] == NoAbs
    ensures KeyBit(BTN_TRIGGER + c) !in DeclaredBits(axes)
  {
    DeclaredCapabilities(axes);
    InitialTableSlots(axes);
  }

  /** A throttle-only device (axis code 6, ABS_THROTTLE, range 0..255): its
      own threshold would be 25, but the loop reads the zero slot 6, so the
      value 1 already presses button BTN_TRIGGER + 6, which is not among the
      declared buttons (only BTN_TRIGGER is); the axis's parameters sit in
      slot 0 of the uinput record and slot 6 is zero. */
  lemma ThrottleOnlyDevice()
    ensures var axes := map[6 := AbsInfo(0, 255, 0, 0)];
      var ev := Event(EV_ABS, 6, 1, TimeVal(0, 0));
      Threshold(255) == 25 &&
      InitialTable(axes)[6] == Zero &&
      Pump(InitialTable(axes), [ev]).out == [Event(EV_KEY, BTN_TRIGGER + 6, 1, TimeVal(0, 0)), ev] &&
      KeyBit(BTN_TRIGGER + 6) !in DeclaredBits(axes) &&
      KeyBit(BTN_TRIGGER) in DeclaredBits(axes) &&
      PackedAbs(axes)[0] == AbsInfo(0, 255, 0, 0) && PackedAbs(axes)[6] == NoAbs
  {
    var axes := map[6 := AbsInfo(0, 255, 0, 0)];
    var ev := Event(EV_ABS, 6, 1, TimeVal(0, 0));
    var codes := AxisCodes(axes, ABS_CNT);
    AxisCodesComplete(axes, ABS_CNT, 6);
    assert SupportedAxes(axes) == {6};
    AxisCodesCount(axes, ABS_CNT);
    assert codes == [6];
    SlotMismatch(axes, 6);
    DeclaredCapabilities(axes);
    assert [ev][..0] == [];
  }

  /** Every key event the loop writes for a device whose stream has no key
      events names BTN_TRIGGER + c for the code c of some axis event of the
      input. */
  lemma {:induction false} KeysFromAxisEvents(tbl: seq<VBtn>, evs: seq<Event>, codes: set<nat>)
    requires |tbl| == ABS_CNT && AllInRange(evs)
    requires forall i :: 0 <= i < |evs| ==>
      evs[i].evType != EV_KEY && (evs[i].evType == EV_ABS ==> evs[i].code in codes)
    ensures forall e :: e in Pump(tbl, evs).out && e.evType == EV_KEY ==>
      e.code >= BTN_TRIGGER && e.code - BTN_TRIGGER in codes
  {
    if evs != [] {
      var init, ev := evs[..|evs| - 1], evs[|evs| - 1];
      assert forall i :: 0 <= i < |init| ==> init[i] == evs[i];
      KeysFromAxisEvents(tbl, init, codes);
      var prev := Pump(tbl, init);
      EmitShape(prev.table, ev);
      assert Pump(tbl, evs).out == prev.out + Emit(prev.table, ev);
    }
  }

  /** With contiguous axes, every key event written for a stream of events
      on the device's own axes is a declared button. */
  lemma EmittedKeysDeclared(axes: map<nat, AbsInfo>, evs: seq<Event>)
    requires Contiguous(axes) && AllInRange(evs)
    requires forall i :: 0 <= i < |evs| ==>
      evs[i].evType != EV_KEY && (evs[i].evType == EV_ABS ==> evs[i].code in SupportedAxes(axes))
    ensures forall e :: e in Pump(InitialTable(axes), evs).out && e.evType == EV_KEY ==>
      KeyBit(e.code) in DeclaredBits(axes)
  {
    KeysFromAxisEvents(InitialTable(axes), evs, SupportedAxes(axes));
    DeclaredCapabilities(axes);
  }

  /** A one-axis pedal (axis 0, range 0..255) gets slot 0 armed with
      threshold 25. */
  lemma PedalTable()
    ensures InitialTable(map[0 := AbsInfo(0, 255, 0, 0)])[0] == VBtn(255, 25, 0)
  {
    var axes := map[0 := AbsInfo(0, 255, 0, 0)];
    assert SupportedAxes(axes) == {0};
    SlotsAgree(axes);
  }

  /** The four readings of the pedal scenario: 0, 200, 30, 10. */
  function PedalReadings(t: TimeVal): seq<Event>
  {
    [Event(EV_ABS, 0, 0, t), Event(EV_ABS, 0, 200, t), Event(EV_ABS, 0, 30, t), Event(EV_ABS, 0, 10, t)]
  }

  /** Each reading on its own, from a released slot 0 with threshold 25:
      0 writes only itself; 200 presses the button first; 30 (still above
      the threshold) writes only itself; 10 releases the button first. */
  lemma PedalSteps(t0: seq<VBtn>, t: TimeVal)
    requires |t0| == ABS_CNT && t0[0] == VBtn(255, 25, 0)
    ensures var r := PedalReadings(t);
      var t2 := t0[0 := VBtn(255, 25, 1)];
      Step(t0, r[0]) == t0 && Emit(t0, r[0]) == [r[0]] &&
      Step(t0, r[1]) == t2 && Emit(t0, r[1]) == [Event(EV_KEY, BTN_TRIGGER, 1, t), r[1]] &&
      Step(t2, r[2]) == t2 && Emit(t2, r[2]) == [r[2]] &&
      Emit(t2, r[3]) == [Event(EV_KEY, BTN_TRIGGER, 0, t), r[3]]
  {
  }

  /** The whole scenario through the loop. */
  lemma PedalScenario(t0: seq<VBtn>, t: TimeVal)
    requires |t0| == ABS_CNT && t0[0] == VBtn(255, 25, 0)
    ensures var r := PedalReadings(t);
      AllInRange(r) &&
      Pump(t0, r).out ==
        [r[0], Event(EV_KEY, BTN_TRIGGER, 1, t), r[1], r[2], Event(EV_KEY, BTN_TRIGGER, 0, t), r[3]]
  {
    var r := PedalReadings(t);
    PedalSteps(t0, t);
    PumpSnoc(t0, [], r[0]);
    assert [] + [r[0]] == r[..1];
    PumpSnoc(t0, r[..1], r[1]);
    assert r[..1] + [r[1]] == r[..2];
    PumpSnoc(t0, r[..2], r[2]);
    assert r[..2] + [r[2]] == r[..3];
    PumpSnoc(t0, r[..3], r[3]);
    assert r[..3] + [r[3]] == r;
  }

  /** One more event at the end of the stream. */
  lemma PumpSnoc(tbl: seq<VBtn>, evs: seq<Event>, ev: Event)
    requires |tbl| == ABS_CNT && AllInRange(evs) && InRange(ev)
    ensures AllInRange(evs + [ev])
    ensures Pump(tbl, evs + [ev]) ==
      Pumped(Step(Pump(tbl, evs).table, ev), Pump(tbl, evs).out + Emit(Pump(tbl, evs).table, ev))
  {
    AllInRangeAppend(evs, [ev]);
    assert (evs + [ev])[..|evs|] == evs;
  }
}
