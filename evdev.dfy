/** The kernel input-subsystem vocabulary that virtjs-btn works with: the
    event-type and code constants of linux/input-event-codes.h and
    linux/uinput.h, the generic input_event record, and the capability
    snapshot of the real device that libevdev reports. */
module Evdev {

  /** C `__u16`, the width of an event's type and code. */
  type U16 = x: int | 0 <= x < 0x1_0000

  /** C `__s32` / `signed int`, the width of an event value and of the
      absolute-axis parameters. */
  type S32 = x: int | -0x8000_0000 <= x < 0x8000_0000

  const EV_SYN: U16 := 0x00
  const EV_KEY: U16 := 0x01
  const EV_ABS: U16 := 0x03
  const EV_MSC: U16 := 0x04
  const MSC_SCAN: U16 := 0x04

  /** Number of absolute-axis codes (ABS_MAX + 1). */
  const ABS_CNT: nat := 0x40

  /** First joystick button code; the synthetic buttons are BTN_TRIGGER + k. */
  const BTN_TRIGGER: U16 := 0x120

  const BUS_VIRTUAL: U16 := 0x06

  /** Size of the name buffer of `struct uinput_user_dev`. */
  const UINPUT_MAX_NAME_SIZE: nat := 80

  /** `struct timeval` of an input event. */
  datatype TimeVal = TimeVal(sec: int, usec: int)

  /** `struct input_event`: {time, type, code, value}. */
  datatype Event = Event(evType: U16, code: U16, value: S32, time: TimeVal)

  /** The minimum, maximum, flat and fuzz libevdev reports for one axis. */
  datatype AbsInfo = AbsInfo(minimum: S32, maximum: S32, flat: S32, fuzz: S32)

  /** What a zero-filled (memset) axis slot holds. */
  const NoAbs := AbsInfo(0, 0, 0, 0)

  /** The capability snapshot of the opened real device: its name and ids
      (libevdev_get_name / _id_vendor / _id_product), the event types it
      declares (libevdev_has_event_type), and for every absolute-axis code it
      declares (libevdev_has_event_code(EV_ABS, code)) that axis's parameters. */
  datatype RealDevice = RealDevice(
    name: string,
    vendor: U16,
    product: U16,
    evTypes: set<U16>,
    axes: map<nat, AbsInfo>)

  /** Event codes are only trusted as table indices for axis events with a
      code below ABS_CNT; the kernel's evdev never reports any other. */
  predicate InRange(ev: Event) {
    ev.evType == EV_ABS ==> ev.code < ABS_CNT
  }

  predicate AllInRange(evs: seq<Event>) {
    forall i :: 0 <= i < |evs| ==> InRange(evs[i])
  }

  /** The events of `evs` that are not key events, in order. */
  function NonKey(evs: seq<Event>): seq<Event>
  {
    if evs == [] then []
    else
      var last := evs[|evs| - 1];
      NonKey(evs[..|evs| - 1]) + if last.evType == EV_KEY then [] else [last]
  }

  /** Concatenation of a sequence of event batches, in order. */
  function Flatten(batches: seq<seq<Event>>): seq<Event>
  {
    if batches == [] then []
    else Flatten(batches[..|batches| - 1]) + batches[|batches| - 1]
  }

  /** Every event of `evs` has one of the given types. The input core and
      libevdev deliver only events of the types a device declares. */
  predicate OfTypes(evs: seq<Event>, types: set<U16>) {
    forall i :: 0 <= i < |evs| ==> evs[i].evType in types
  }

  lemma {:induction false} FlattenOfTypes(batches: seq<seq<Event>>, types: set<U16>)
    requires forall b :: 0 <= b < |batches| ==> OfTypes(batches[b], types)
    ensures OfTypes(Flatten(batches), types)
  {
    if batches != [] {
      var init := batches[..|batches| - 1];
      FlattenOfTypes(init, types);
      var a, b := Flatten(init), batches[|batches| - 1];
      assert OfTypes(b, types);
      forall i | 0 <= i < |a + b| ensures (a + b)[i].evType in types {
        if i < |a| { assert (a + b)[i] == a[i]; } else { assert (a + b)[i] == b[i - |a|]; }
      }
    }
  }
}
