# virtjs-btn in Dafny

virtjs-btn mirrors a Linux input device that has absolute axes but no
buttons, such as a throttle or a pedal. It creates a uinput device that
repeats every event of the real device. It also presses and releases
synthetic joystick buttons as axis values cross thresholds. When the
device's axes are the codes 0 .. n-1, there is one button per axis,
toggled whenever that axis's value crosses a tenth of its maximum. For
other axis layouts, see "Slot and code disagree" below. This project
models the core of `main` in `src/virtjs-btn.c` and proves what it does:

- **Refusal.** A device that declares key events is refused. A device
  that declares no absolute axes is refused too. The key check is made
  first.
- **Setup.**
  - `abs_cnt` is the number of supported axis codes in `[0, ABS_CNT)`.
  - Buttons `BTN_TRIGGER + 0 .. BTN_TRIGGER + abs_cnt - 1` are declared.
  - The supported axes are walked in ascending order. The parameters of
    the k-th one go into slot k of the uinput record. Slot k of the `vbtns`
    table gets its maximum and a threshold of a tenth of that maximum. All
    other slots stay zero.
- **Translation loop.** For each event, in arrival order:
  - An axis event computes `value > thresh`, a strict comparison.
  - If that differs from the stored state, the state is stored and a key
    event `BTN_TRIGGER + code` is written first. It carries the new state
    and the original event's time.
  - Then the event itself is written.

The model has four modules:

- `Evdev` (evdev.dfy) holds the kernel constants with their Linux values,
  the `input_event` record and the capability snapshot of the real device.
- `AxisMap` (axis_map.dfy) defines the supported-axis list, the threshold,
  the table setup builds and the per-event state machine (`Step`, `Emit`,
  and `Pump` for a whole stream). Every property of the loop is proved
  about these functions.
- `Uinput` (uinput.dfy) is the `/dev/uinput` descriptor as a class. It
  records the capability ioctls, the device record, the create call and
  the written events.
- `VirtjsBtn` (virtjs_btn.dfy) is the program itself, in imperative form:
  - `ButtonTable` is a class over the `vbtns` array. `Fill` is the build
    loop, `Translate` is one event, `Drain` is one batch.
  - `CountAxes` and `DeclareButtons` are the counting and declaration
    loops.
  - `Describe`, `Serve` and `Run` are the rest of `main`.
  - Each is proved against the functions of `AxisMap`.
- `SlotCodes` (also in virtjs_btn.dfy) deals with the slot/code mismatch
  described next.

**Slot and code disagree.** Setup packs the supported axes into slots
`0 .. abs_cnt - 1` and declares buttons by slot. The loop instead indexes
`vbtns` by the raw axis code and emits `BTN_TRIGGER + code`. The model
keeps both as written.

- `SlotsAgree` proves that every button the loop can emit is declared
  exactly when the supported axes are `0 .. abs_cnt - 1`. In that case the
  slot the loop reads for an axis holds that axis's own maximum and
  threshold.
- `SlotMismatch` and `ThrottleOnlyDevice` show what happens otherwise. An
  axis whose code is `abs_cnt` or more reads a zero slot, whose threshold
  is 0. It also emits a button that was never declared.
- The same packing applies to the `absmin`/`absmax`/`absflat`/`absfuzz`
  arrays of the uinput record, which uinput reads by axis code.

**Two behaviours to note.**

- Buttons are not assigned one per axis in order of discovery. Setup
  declares them by slot, but the loop emits `BTN_TRIGGER` plus the raw
  axis code (see above).
- The refusal at src/virtjs-btn.c:78 tests only the `EV_ABS` type bit,
  though its message says the device does not have absolute axes. A
  device with that bit and no axis codes passes, with `abs_cnt == 0`.

**Assumptions.**

- An axis event's code is below `ABS_CNT` (`InRange`). The source indexes
  `vbtns[ABS_CNT]` with it unchecked. The kernel's evdev never reports a
  larger axis code.
- Every event read from the real device has a type the device declares
  (`OfTypes`). The input core and libevdev deliver only such events. An
  accepted device declares no `EV_KEY` (src/virtjs-btn.c:73-76), so its
  input has no key events. This is what lets `Run` conclude, through
  `PassThrough`, that dropping the key events from everything written
  gives back exactly the input.
- The threshold `(signed int)(max * 0.1)` is modelled as exact division by
  ten, truncated toward zero (`Threshold`). For every 32-bit maximum the
  double product truncates to this value. The reason is that the double
  nearest 0.1 is slightly above 0.1, and a multiple of ten times it
  rounds to no less than the exact quotient.

## Model

| member | source | states |
|---|---|---|
| `VirtjsBtn.Refusal` | src/virtjs-btn.c:73-81 | The device is refused as HasButtons exactly when it declares EV_KEY, and as NoAbsAxes exactly when it declares neither EV_KEY nor EV_ABS. Otherwise it is accepted, so the key check takes precedence. |
| `AxisMap.AxisCodes` | src/virtjs-btn.c:125-126 | The listed axis codes are supported, below the bound and strictly ascending, which is the order the setup loops visit them. |
| `AxisMap.AxisCodesComplete` | src/virtjs-btn.c:125-126 | Every supported axis code below the bound is listed. |
| `AxisMap.AxisCodesCount` | src/virtjs-btn.c:103-108 | The length of the ascending list equals the number of supported codes below the bound. |
| `VirtjsBtn.CountAxes` | src/virtjs-btn.c:102-108 | The counting loop returns the cardinality of the set of supported axis codes in [0, ABS_CNT), which is at most ABS_CNT. |
| `VirtjsBtn.DeclareButtons` | src/virtjs-btn.c:113-116 | The loop issues UI_SET_KEYBIT for BTN_TRIGGER + i, for i from 0 up to abs_cnt - 1, in order, and nothing else. |
| `VirtjsBtn.DeclaredCapabilities` | src/virtjs-btn.c:110-127 | The virtual device declares the types SYN, KEY, ABS and MSC, the MSC_SCAN bit, exactly the keys BTN_TRIGGER .. BTN_TRIGGER + abs_cnt - 1, and exactly the supported axis codes. |
| `AxisMap.Threshold` | src/virtjs-btn.c:134 | The threshold is a tenth of the maximum truncated toward zero: 10t <= max < 10t + 10 for max >= 0, and the mirror image for max < 0. |
| `AxisMap.ThresholdBoundary` | src/virtjs-btn.c:134 | A maximum of 255 gives threshold 25. Value 25 selects state 0 and value 26 selects state 1, because the comparison is strict. |
| `AxisMap.InitialTableSlots` | src/virtjs-btn.c:121-139 | After setup every state is 0. Slot k holds the maximum of the k-th supported axis (also slot k of the uinput record) and Threshold of it. Slots from abs_cnt onward are zero, as the memset left them. |
| `VirtjsBtn.ButtonTable.constructor` | src/virtjs-btn.c:121-122 | The table has ABS_CNT slots, all zero. |
| `VirtjsBtn.ButtonTable.Fill` | src/virtjs-btn.c:124-139 | The build loop ends with j == abs_cnt. The table equals InitialTable and the record's axis arrays equal PackedAbs. UI_SET_ABSBIT was issued for each supported code in ascending order. |
| `VirtjsBtn.ButtonTable.Translate` | src/virtjs-btn.c:165-182 | One event leaves the table as Step says and appends Emit to the written events. Every state stays 0 or 1. |
| `VirtjsBtn.ButtonTable.Drain` | src/virtjs-btn.c:161-185 | The inner loop over a batch leaves the table and the written events as Pump over that batch says. |
| `AxisMap.EmitShape` | src/virtjs-btn.c:165-182 | Each event writes [ev] or [key, ev]. The key comes exactly when an axis event's strict-threshold state differs from the stored one. It has type EV_KEY, code BTN_TRIGGER + code, the new state (0 or 1) as value and the same time. The stored state becomes the new state and no other slot changes. |
| `AxisMap.PumpKeepsLimits` | src/virtjs-btn.c:167-169 | The loop never changes any slot's max or thresh. If all states start in {0,1}, they stay there. |
| `AxisMap.PassThrough` | src/virtjs-btn.c:162-185 | For an input without key events, removing the key events from the output gives exactly the input, unchanged and in order. |
| `AxisMap.PumpKeepsOtherAxes` | src/virtjs-btn.c:165-169 | A slot is unchanged by any stream that has no axis event on that slot's code. In particular non-axis events never modify the table. |
| `AxisMap.NoRedundantKey` | src/virtjs-btn.c:167-168 | Take two axis events on the same axis whose values fall on the same side of the threshold. Whatever events for other axes come between them, the second one writes only itself. |
| `AxisMap.PumpAppend` | src/virtjs-btn.c:157-186 | Running the loop over a then b equals running it over a + b: the state carries over from one poll wake-up to the next. |
| `VirtjsBtn.Describe` | src/virtjs-btn.c:88-141 | Setup issues exactly DeclaredBits, writes one record with name "Virtual <name>", BUS_VIRTUAL, the real vendor and product, version 1 and PackedAbs, and leaves the table equal to InitialTable. |
| `VirtjsBtn.VirtualName` | src/virtjs-btn.c:96-100 | The name starts with "Virtual ". It is a prefix of "Virtual " + name, of length min(8 + len, UINPUT_MAX_NAME_SIZE). |
| `VirtjsBtn.Serve` | src/virtjs-btn.c:149-192 | The poll loop over all batches writes Pump over their concatenation, starting from the table as setup left it. |
| `VirtjsBtn.Run` | src/virtjs-btn.c:73-192 | A refused device, or a missing /dev/uinput, leaves the uinput descriptor untouched, with nothing declared or created. A rejected create writes no events. A completed run has declared DeclaredBits, written the record, created the device and written Pump of the initial table over all the events. Dropping the key events from what it wrote gives back exactly the events read, in order. |
| `Uinput.UinputDev.constructor` | src/virtjs-btn.c:83 | A newly opened /dev/uinput has nothing declared, written or created. |
| `Uinput.UinputDev.SetBit` | src/virtjs-btn.c:111-119 | A capability ioctl is appended to the declarations, in order. |
| `Uinput.UinputDev.WriteSetup` | src/virtjs-btn.c:141 | The device record is appended to what was written. |
| `Uinput.UinputDev.Create` | src/virtjs-btn.c:143-147 | UI_DEV_CREATE reports the kernel's answer and marks the device created when it is accepted. |
| `Uinput.UinputDev.WriteEvent` | src/virtjs-btn.c:177 | A written event is appended to the output, in order. |
| `SlotCodes.SlotsAgree` | src/virtjs-btn.c:113-173 | Every supported axis's emitted button BTN_TRIGGER + code is declared if and only if the supported axes are 0 .. abs_cnt - 1. In that case the slot read for an axis holds that axis's own max and threshold, and the record's slot holds its own parameters. |
| `SlotCodes.SlotMismatch` | src/virtjs-btn.c:121-173 | A supported axis with code >= abs_cnt reads a zero table slot (threshold 0) and a zero record slot. Its emitted button is not declared. |
| `SlotCodes.ThrottleOnlyDevice` | src/virtjs-btn.c:124-177 | Take a device with only axis 6 (range 0..255). Its own threshold would be 25, yet the value 1 already writes KEY BTN_TRIGGER + 6 = 1. That button is undeclared (only BTN_TRIGGER is declared), and the axis's parameters sit in record slot 0 while slot 6 is zero. |
| `SlotCodes.KeysFromAxisEvents` | src/virtjs-btn.c:165-177 | For an input without key events, every key event written names BTN_TRIGGER + c, where c is the code of some axis event of the input. |
| `SlotCodes.EmittedKeysDeclared` | src/virtjs-btn.c:113-177 | When the axes are contiguous and the input's axis events are on supported axes, every key event written is a declared button. |
| `SlotCodes.PedalTable` | src/virtjs-btn.c:124-139 | A one-axis device with range 0..255 gets slot 0 with max 255, threshold 25, state 0. |
| `SlotCodes.PedalSteps` | src/virtjs-btn.c:165-182 | From that slot, readings 0, 200, 30, 10 write [0], [KEY 1, 200], [30] and [KEY 0, 10], with the states that go with them. |
| `SlotCodes.PedalScenario` | src/virtjs-btn.c:161-185 | Through the loop, the readings 0, 200, 30, 10 write exactly ABS 0, KEY 1, ABS 200, ABS 30, KEY 0, ABS 10. |

## Left out

- Argument checking and opening the real device (src/virtjs-btn.c:48-62) are left out. So is printing the device's name and ids (64-71). libevdev is a foreign library: its snapshot of the device is the `RealDevice` value.
- libevdev reports an axis code only when the device also declares EV_ABS. The model's axis map alone says which codes are supported. This changes nothing after the refusal checks, which require EV_ABS.
- Kernel I/O is left out. open, ioctl and write on /dev/uinput are recorded in `UinputDev`, whose fields are sequences the methods append to. The answers of open and UI_DEV_CREATE are parameters of `Run`. The return values of write and of the UI_SET_* ioctls are ignored, as the source ignores them. What uinput does with the record and the events is not part of this model.
- The four arrays absmin, absmax, absflat and absfuzz of the record are one array of `AbsInfo` indexed alike.
- poll, readiness, the SIGINT handler and hangup (src/virtjs-btn.c:31-34, 149-192) are left out. The loop runs over a finite sequence of batches, one per wake-up, and ends after the last one.
- The return codes of libevdev_next_event are left out. Each batch holds exactly the events returned with rc == 0. The SYN_DROPPED resynchronisation status and -EAGAIN end a batch without being modelled.
- The floating-point product `max * 0.1` is modelled by exact integer division. See the assumption above.
- The C string handling of the name (snprintf, malloc, NUL bytes, the missing terminator when the name fills the buffer) is left out. `VirtualName` states only the prefix and the truncation. The name is taken as one character per byte. strncpy cuts at 80 bytes, so for a name with multi-byte UTF-8 characters the model's cut at 80 characters differs from the source's.
- The `goto end` teardown and the errno exit status (src/virtjs-btn.c:194-212) are left out. `Run` reports how the run ended as an `Exit` value instead.
