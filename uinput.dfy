/** The /dev/uinput file descriptor of virtjs-btn, seen from the program:
    the capability bits declared on it with ioctl(UI_SET_*BIT), the
    `struct uinput_user_dev` records written to it, whether UI_DEV_CREATE
    succeeded, and the input events written to it afterwards. The kernel
    side (what uinput does with them) is not part of this model. */
module Uinput {
  import opened Evdev

  /** One capability-declaration ioctl. */
  datatype Decl =
    | EvBit(evType: U16)   // UI_SET_EVBIT
    | KeyBit(key: int)     // UI_SET_KEYBIT
    | AbsBit(axis: int)    // UI_SET_ABSBIT
    | MscBit(msc: U16)     // UI_SET_MSCBIT

  /** `struct uinput_user_dev`: name, id (bus type, vendor, product,
      version), and the per-axis parameters; `abs` stands for the four
      parallel arrays absmin, absmax, absflat and absfuzz, indexed alike. */
  datatype UserDev = UserDev(
    name: string,
    bustype: U16,
    vendor: U16,
    product: U16,
    version: U16,
    abs: seq<AbsInfo>)

  class UinputDev {
    /** The capability ioctls issued, in order. */
    var bits: seq<Decl>
    /** The device records written, in order. */
    var setup: seq<UserDev>
    /** Whether UI_DEV_CREATE has succeeded. */
    var created: bool
    /** The input events written, in order. */
    var events: seq<Event>

    /** A freshly opened descriptor on which nothing has been done. */
    constructor ()
      ensures bits == [] && setup == [] && !created && events == []
    {
      bits, setup, created, events := [], [], false, [];
    }

    method SetBit(d: Decl)
      modifies this`bits
      ensures bits == old(bits) + [d]
    {
      bits := bits + [d];
    }

    method WriteSetup(u: UserDev)
      modifies this`setup
      ensures setup == old(setup) + [u]
    {
      setup := setup + [u];
    }

    /** ioctl(UI_DEV_CREATE); `accepted` is the kernel's answer. */
    method Create(accepted: bool) returns (ok: bool)
      modifies this`created
      ensures ok == accepted
      ensures created == (old(created) || accepted)
    {
      ok := accepted;
      created := created || accepted;
    }

    method WriteEvent(e: Event)
      modifies this`events
      ensures events == old(events) + [e]
    {
      events := events + [e];
    }
  }
}
